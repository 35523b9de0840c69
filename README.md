# HackerSM64 core logic in Dafny

This project models five small pieces of HackerSM64, a Super Mario 64 engine fork for the Nintendo 64, and proves what they promise.

- **Byte and bit helpers of the boot-time DEFLATE decompressor** (`CommonDefs`, common_defs.dfy):
  - byte swaps, and the `le*/be*_bswap` macros of a big-endian CPU;
  - unaligned little- and big-endian loads and stores, with the fast path proved equal to the byte-by-byte fallback;
  - the bit scans `bsr*`/`bsf*` and the rounding macros.
- **Address and array macros of `include/macros.h`** (`Macros`, macros.dfy): the KSEG0 virtual/physical conversions under both memory layouts, and `ARRAY_COUNT`.
- **The crash screen's memory viewer page** (`PageMemory`, page_memory.dfy): a class holding the cursor, viewport, visible-row count and display mode.
  - The input handler moves the cursor inside the RAM range and within its 16-byte row, seeds the address popup and steps the display mode.
  - The drawing routine fixes the row count. The nested row/word/byte loop renders every byte: its hex digits, its eight binary cells, its highlight, the text colour of the HEX and ASCII glyphs, and `*` in the out-of-bounds colour for unreadable words.
- **The sliding Bowser puzzle of Lethal Lava Land**, in two modules:
  - `BowserPuzzleSchedule` (bowser_puzzle_schedule.dfy) holds the fourteen action lists and the spawn table. It proves what the lists do to the 4 x 4 board: one mover per step, every slide into the single empty cell, a forward pass undone in mirror order, and every piece home after 26 steps.
  - `BowserPuzzle` (bowser_puzzle.dfy) holds the parent and the pieces as classes, their methods proved against pure frame functions. Every list entry lasts exactly 25 frames. A piece raises PUZZLE_COMPLETE once per 650 frames and stands where the board says. The parent spawns its five coins at most once.
- **The Tick Tock Clock painting's hands** (`ClockArm`, clock_arm.dfy): the WAIT/MOVING/STOPPED machine and the total classification of the minute hand's angle into a speed setting.

Both behaviours count frames with the object engine's action timer. The engine is not part of this model, so `ObjectTimer` (object_timer.dfy) states the rules the behaviours rely on:
- the timer counts up once per frame after the behaviour has run, stopping at 0x3FFFFFFF;
- it restarts at 0 when the action has changed;
- the change-action helper sets the action and the previous action and restarts the timer.

The engine's enum values are assumed from the ordering visible in the source: the piece actions IDLE, LEFT, RIGHT, UP, DOWN are 0 to 4, in the order of `sBowserPuzzlePieceActions`.

## Model

| member | source | states |
|---|---|---|
| CommonDefs.Min | src/boot/deflate/common_defs.h:246 | MIN returns one of its arguments, bounded by both, and the first one on a tie |
| CommonDefs.Max | src/boot/deflate/common_defs.h:247 | MAX returns one of its arguments, bounding both, and the first one on a tie |
| CommonDefs.DivRoundUp | src/boot/deflate/common_defs.h:248 | DIV_ROUND_UP is the ceiling of n / d: (r - 1) d < n <= r d |
| CommonDefs.RoundUp | src/boot/deflate/common_defs.h:251 | ROUND_UP(n, d) is a multiple of d, at least n and less than n + d |
| CommonDefs.RoundUpBounds | src/boot/deflate/common_defs.h:251 | ROUND_UP(n, d) is d * DIV_ROUND_UP(n, d), the least multiple of d that is at least n |
| CommonDefs.Align | src/boot/deflate/common_defs.h:250 | ALIGN(n, a) always has the bits of a - 1 clear, whatever a is |
| CommonDefs.AlignIsLeastMultiple | src/boot/deflate/common_defs.h:250 | for a power-of-two a and no 32-bit wrap, ALIGN(n, a) is a multiple of a, at least n and less than n + a |
| CommonDefs.Bswap16 | src/boot/deflate/common_defs.h:267-276 | the little-endian bytes of bswap16(v) are the big-endian bytes of v |
| CommonDefs.Bswap32 | src/boot/deflate/common_defs.h:279-291 | bswap32 reverses the four bytes of v |
| CommonDefs.Bswap64 | src/boot/deflate/common_defs.h:294-310 | bswap64 reverses the eight bytes of v |
| CommonDefs.BswapInvolutions | src/boot/deflate/common_defs.h:267-310 | each byte swap, applied twice, gives back its argument |
| CommonDefs.Le16Bswap | src/boot/deflate/common_defs.h:312 | le16_bswap(v) laid out in CPU byte order gives the little-endian bytes of v |
| CommonDefs.Le32Bswap | src/boot/deflate/common_defs.h:313 | le32_bswap(v) laid out in CPU byte order gives the little-endian bytes of v |
| CommonDefs.Le64Bswap | src/boot/deflate/common_defs.h:314 | le64_bswap(v) laid out in CPU byte order gives the little-endian bytes of v |
| CommonDefs.Be16Bswap | src/boot/deflate/common_defs.h:315 | be16_bswap(v) laid out in CPU byte order gives the big-endian bytes of v |
| CommonDefs.Be32Bswap | src/boot/deflate/common_defs.h:316 | be32_bswap(v) laid out in CPU byte order gives the big-endian bytes of v |
| CommonDefs.Be64Bswap | src/boot/deflate/common_defs.h:317 | be64_bswap(v) laid out in CPU byte order gives the big-endian bytes of v |
| CommonDefs.SwapMacrosOnBigEndian | src/boot/deflate/common_defs.h:264-317 | with CPU_IS_LITTLE_ENDIAN() fixed at 0, le*_bswap is bswap* and be*_bswap is the identity |
| CommonDefs.LoadU16Unaligned | src/boot/deflate/common_defs.h:346-359 | the native unaligned 16-bit load on the big-endian CPU reads p[0] as the high byte |
| CommonDefs.LoadU32Unaligned | src/boot/deflate/common_defs.h:346-360 | the native unaligned 32-bit load reads the four bytes most significant first |
| CommonDefs.LoadU64Unaligned | src/boot/deflate/common_defs.h:346-361 | the native unaligned 64-bit load reads the eight bytes most significant first |
| CommonDefs.StoreU16Unaligned | src/boot/deflate/common_defs.h:353-359 | the native unaligned store writes the big-endian bytes of v at p and changes nothing else |
| CommonDefs.StoreU32Unaligned | src/boot/deflate/common_defs.h:353-360 | the 32-bit store writes the four big-endian bytes at p and changes nothing else |
| CommonDefs.StoreU64Unaligned | src/boot/deflate/common_defs.h:353-361 | the 64-bit store writes the eight big-endian bytes at p and changes nothing else |
| CommonDefs.GetLe16Bytewise | src/boot/deflate/common_defs.h:375 | the get_unaligned_le16 fallback reads p[0] as the low byte |
| CommonDefs.GetBe16Bytewise | src/boot/deflate/common_defs.h:384 | the get_unaligned_be16 fallback reads p[0] as the high byte |
| CommonDefs.GetLe32Bytewise | src/boot/deflate/common_defs.h:393-394 | the get_unaligned_le32 fallback reads the four bytes least significant first |
| CommonDefs.GetBe32Bytewise | src/boot/deflate/common_defs.h:403-404 | the get_unaligned_be32 fallback reads the four bytes most significant first |
| CommonDefs.GetLe64Bytewise | src/boot/deflate/common_defs.h:413-416 | the get_unaligned_le64 fallback reads the eight bytes least significant first |
| CommonDefs.GetUnalignedLe16 | src/boot/deflate/common_defs.h:369-376 | get_unaligned_le16 reads p[0] as the low byte, and its fast path equals the fallback p[1] << 8 \| p[0] |
| CommonDefs.GetUnalignedBe16 | src/boot/deflate/common_defs.h:378-385 | get_unaligned_be16 reads p[0] as the high byte, and the fast path equals the fallback |
| CommonDefs.GetUnalignedLe32 | src/boot/deflate/common_defs.h:387-395 | get_unaligned_le32 reads the bytes least significant first, and the fast path equals the fallback |
| CommonDefs.GetUnalignedBe32 | src/boot/deflate/common_defs.h:397-405 | get_unaligned_be32 reads the bytes most significant first, and the fast path equals the fallback |
| CommonDefs.GetUnalignedLe64 | src/boot/deflate/common_defs.h:407-417 | get_unaligned_le64 reads the bytes least significant first, and the fast path equals the fallback |
| CommonDefs.GetUnalignedLeword | src/boot/deflate/common_defs.h:419-427 | get_unaligned_leword reads 4 or 8 little-endian bytes according to WORDBITS |
| CommonDefs.PutLe16Bytewise | src/boot/deflate/common_defs.h:436-439 | the put_unaligned_le16 fallback writes the little-endian bytes of v at p and nothing else |
| CommonDefs.PutBe16Bytewise | src/boot/deflate/common_defs.h:447-450 | the put_unaligned_be16 fallback writes the big-endian bytes of v at p and nothing else |
| CommonDefs.PutLe32Bytewise | src/boot/deflate/common_defs.h:458-463 | the put_unaligned_le32 fallback writes p[0] = v, p[1] = v >> 8, ... and nothing else |
| CommonDefs.PutBe32Bytewise | src/boot/deflate/common_defs.h:471-476 | the put_unaligned_be32 fallback writes p[0] = v >> 24, ..., p[3] = v and nothing else |
| CommonDefs.PutLe64Bytewise | src/boot/deflate/common_defs.h:484-493 | the put_unaligned_le64 fallback writes the eight little-endian bytes of v at p and nothing else |
| CommonDefs.PutUnalignedLe16 | src/boot/deflate/common_defs.h:431-440 | the fast path (swap, then native store) leaves the buffer exactly as the fallback does, and reading back gives v |
| CommonDefs.PutUnalignedBe16 | src/boot/deflate/common_defs.h:442-451 | the fast path leaves the buffer exactly as the fallback does, and reading back gives v |
| CommonDefs.PutUnalignedLe32 | src/boot/deflate/common_defs.h:453-464 | the fast path leaves the buffer exactly as the fallback does, and reading back gives v |
| CommonDefs.PutUnalignedBe32 | src/boot/deflate/common_defs.h:466-477 | the fast path leaves the buffer exactly as the fallback does, and reading back gives v |
| CommonDefs.PutUnalignedLe64 | src/boot/deflate/common_defs.h:479-494 | the fast path leaves the buffer exactly as the fallback does, and reading back gives v |
| CommonDefs.PutUnalignedLeword | src/boot/deflate/common_defs.h:496-504 | put_unaligned_leword is the 32- or 64-bit writer according to WORDBITS, and reading back with get_unaligned_leword gives v |
| CommonDefs.PutThenGetLe16 | src/boot/deflate/common_defs.h:369-440 | writing v little-endian and reading it back gives v |
| CommonDefs.PutThenGetBe16 | src/boot/deflate/common_defs.h:378-451 | writing v big-endian and reading it back gives v |
| CommonDefs.PutThenGetLe32 | src/boot/deflate/common_defs.h:387-464 | writing v little-endian and reading it back gives v |
| CommonDefs.PutThenGetBe32 | src/boot/deflate/common_defs.h:397-477 | writing v big-endian and reading it back gives v |
| CommonDefs.PutThenGetLe64 | src/boot/deflate/common_defs.h:407-494 | writing v little-endian and reading it back gives v |
| CommonDefs.GetThenPut | src/boot/deflate/common_defs.h:369-494 | reading a value and writing it back in the same byte order leaves the buffer unchanged |
| CommonDefs.ScanReverse | src/boot/deflate/common_defs.h:527-531 | the fallback loop of bsr, on a nonzero value, returns i with 2^i <= v < 2^(i+1) |
| CommonDefs.ScanForward | src/boot/deflate/common_defs.h:581-585 | the fallback loop of bsf, on a nonzero value, returns the index of the lowest set bit: bit i is set and bits 0 .. i-1 are clear |
| CommonDefs.Bsr32 | src/boot/deflate/common_defs.h:516-533 | bsr32 of a nonzero value is the index of its most significant set bit |
| CommonDefs.Bsr64 | src/boot/deflate/common_defs.h:535-552 | bsr64 of a nonzero value is the index of its most significant set bit |
| CommonDefs.Bsrw | src/boot/deflate/common_defs.h:554-562 | bsrw of a nonzero machine word of WORDBITS bits is the index of its most significant set bit |
| CommonDefs.Bsf32 | src/boot/deflate/common_defs.h:570-587 | bsf32 of a nonzero value is the index of its least significant set bit |
| CommonDefs.Bsf64 | src/boot/deflate/common_defs.h:589-606 | bsf64 of a nonzero value is the index of its least significant set bit |
| CommonDefs.Bsfw | src/boot/deflate/common_defs.h:608-616 | bsfw of a nonzero machine word of WORDBITS bits is the index of its least significant set bit |
| Macros.VirtualToPhysical | include/macros.h:70-84 | VIRTUAL_TO_PHYSICAL keeps the low 29 bits, so the result is a physical address; without segmented memory it is the identity |
| Macros.PhysicalToVirtual | include/macros.h:70-84 | PHYSICAL_TO_VIRTUAL sets bit 31 and keeps the low 31 bits; without segmented memory it is the identity |
| Macros.VirtualToPhysical2 | include/macros.h:70-84 | VIRTUAL_TO_PHYSICAL2 subtracts 0x80000000 modulo 2^32; without segmented memory it is the identity |
| Macros.PhysicalToVirtualInKseg0 | include/macros.h:75 | a physical address converted to virtual lies in the KSEG0 window |
| Macros.PhysicalRoundTrip | include/macros.h:72-75 | physical to virtual and back gives the physical address again |
| Macros.PhysicalRoundTrip2 | include/macros.h:75-78 | the same round trip holds through VIRTUAL_TO_PHYSICAL2 |
| Macros.Kseg0RoundTrip | include/macros.h:72-75 | a KSEG0 address converted to physical and back is unchanged |
| Macros.Kseg0ConversionsAgree | include/macros.h:72-78 | on KSEG0 the masking and the subtracting conversions agree |
| Macros.VirtualToPhysicalIdempotent | include/macros.h:70-84 | VIRTUAL_TO_PHYSICAL applied twice equals applying it once, and it leaves a physical address alone |
| Macros.MirrorsShareAddress | include/macros.h:72 | the uncached KSEG1 mirror of a KSEG0 address has the same physical address |
| Macros.ToS32 | include/macros.h:10 | the (s32) cast gives the unique value in the s32 range congruent to its argument mod 2^32, so the argument itself when below 2^31 |
| Macros.ArrayCount | include/macros.h:10 | ARRAY_COUNT is the number of elements for any array of fewer than 2^31 elements |
| ObjectTimer.Tick | src/game/behaviors/clock_arm.inc.c:13-16 | the engine timer update that the timer checks rely on: it counts up, saturates at 0x3FFFFFFF and restarts at 0 after a change of action |
| ObjectTimer.TimerCountsFrames | src/game/behaviors/bowser_puzzle_piece.c:233-239 | after a change of action, the timer equals the number of frames since, as the IDLE wait assumes |
| PageMemory.ScrollUp | src/crash_screen/pages/page_memory.c:306-311 | Up moves the cursor back one row step exactly when it is at least start + step, and otherwise leaves it alone |
| PageMemory.ScrollDown | src/crash_screen/pages/page_memory.c:313-318 | Down moves the cursor forward one row step exactly when it is at most end - step, and otherwise leaves it alone |
| PageMemory.StepLeft | src/crash_screen/pages/page_memory.c:320-325 | Left moves back one byte unless the cursor is on the first byte of a 16-byte row, and never leaves the row |
| PageMemory.StepRight | src/crash_screen/pages/page_memory.c:327-332 | Right moves forward one byte unless the cursor is on the last byte of a 16-byte row, and never leaves the row |
| PageMemory.MoveCursor | src/crash_screen/pages/page_memory.c:306-332 | with no direction pressed the cursor stays; with only left and right it never leaves its 16-byte row |
| PageMemory.ScrollUpInRam | src/crash_screen/pages/page_memory.c:306-311 | Up keeps a cursor inside the RAM range and keeps its column |
| PageMemory.ScrollDownInRam | src/crash_screen/pages/page_memory.c:313-318 | Down keeps a cursor inside the RAM range and keeps its column |
| PageMemory.StepLeftInRam | src/crash_screen/pages/page_memory.c:320-325 | Left keeps a cursor inside the RAM range |
| PageMemory.StepRightInRam | src/crash_screen/pages/page_memory.c:327-332 | Right keeps a cursor inside the RAM range |
| PageMemory.MoveCursorStaysInRam | src/crash_screen/pages/page_memory.c:306-332 | whatever directions are pressed on one frame, a cursor inside the RAM range stays inside it |
| PageMemory.PopupSeed | src/crash_screen/pages/page_memory.c:336-343 | the popup is seeded with the word at the cursor when it is readable and a valid RAM address, otherwise with the cursor |
| PageMemory.HexDigitInverts | src/crash_screen/pages/page_memory.c:74 | gHex maps each value 0..15 to a digit that reads back as that value |
| PageMemory.WordByte | src/crash_screen/pages/page_memory.c:178 | byte k of a word, first byte in memory most significant, is a value 0..255 |
| PageMemory.WordBytesRecompose | src/crash_screen/pages/page_memory.c:178 | the four bytes of a word, first byte in memory most significant, recompose the word: w = 2^24 b0 + 2^16 b1 + 2^8 b2 + b3 |
| PageMemory.WordHalf | src/crash_screen/pages/page_memory.c:196 | halfword i of a word is made of its bytes 2i and 2i + 1, the first one most significant |
| PageMemory.BinaryCells | src/crash_screen/pages/page_memory.c:187-194 | the BINARY loop draws eight cells, cell i showing bit 7 - i |
| PageMemory.BinaryCellsRecompose | src/crash_screen/pages/page_memory.c:187-194 | the eight BINARY cells, read most significant first, spell the byte |
| PageMemory.HexGlyphRecompose | src/crash_screen/pages/page_memory.c:180-183 | the two HEX digits gHex[b >> 4], gHex[b & 0xF] read back as b |
| PageMemory.ByteCellOf | src/crash_screen/pages/page_memory.c:133-206 | a byte's address is the word address plus its offset; selection wins over the PC highlight; exactly the HEX and ASCII glyphs use the text colour, DATA1 for odd bytes and in ASCII mode, inverted on the selected byte; an unreadable word draws the placeholder in the out-of-bounds colour, whether selected or not |
| PageMemory.CellAt | src/crash_screen/pages/page_memory.c:99-206 | byte j of row y is at the row address plus j, with the highlight, text-colour and placeholder rules of its word |
| PageMemory.CellAtWord | src/crash_screen/pages/page_memory.c:117-133 | cell 4w + b of a row is byte b of the row's word w |
| PageMemory.MemoryPage.constructor | src/crash_screen/pages/page_memory.c:71-72 | the viewport starts at 0, with 20 visible rows and HEX mode |
| PageMemory.MemoryPage.Init | src/crash_screen/pages/page_memory.c:80-82 | page_memory_init moves the viewport to the cursor and changes nothing else |
| PageMemory.MemoryPage.Input | src/crash_screen/pages/page_memory.c:305-350 | the new cursor is the four direction checks in order; A seeds the popup without moving the cursor; B steps the display mode; the viewport is re-clamped to the cursor |
| PageMemory.MemoryPage.ScrollUpCursor | src/crash_screen/pages/page_memory.c:306-311 | the Up branch moves the cursor as ScrollUp says and changes nothing else |
| PageMemory.MemoryPage.ScrollDownCursor | src/crash_screen/pages/page_memory.c:313-318 | the Down branch moves the cursor as ScrollDown says and changes nothing else |
| PageMemory.MemoryPage.StepLeftCursor | src/crash_screen/pages/page_memory.c:320-325 | the Left branch moves the cursor as StepLeft says and changes nothing else |
| PageMemory.MemoryPage.StepRightCursor | src/crash_screen/pages/page_memory.c:327-332 | the Right branch moves the cursor as StepRight says and changes nothing else |
| PageMemory.MemoryPage.PrintData | src/crash_screen/pages/page_memory.c:88-217 | ram_viewer_print_data renders one row of 16 cells per visible row, each cell as CellAt says |
| PageMemory.MemoryPage.PrintRow | src/crash_screen/pages/page_memory.c:99-215 | the word and byte loops of one row produce its 16 cells in address order |
| PageMemory.MemoryPage.PrintByte | src/crash_screen/pages/page_memory.c:133-213 | the byte-loop body draws the cell ByteCellOf describes |
| PageMemory.MemoryPage.Draw | src/crash_screen/pages/page_memory.c:219-265 | the row count is 20 less one per header line shown; the range ends at the last visible row; the viewport, cursor and mode are unchanged; the rows are the ones ram_viewer_print_data renders |
| PageMemory.VisibleRows | src/crash_screen/pages/page_memory.c:222-226 | between 18 and 20 rows are shown, and 20 exactly when neither header line is shown |
| ClockArm.RollAngle | src/game/behaviors/clock_arm.inc.c:7 | the u16 cast of the roll is in 0..0xFFFF and congruent to it modulo 2^16 |
| ClockArm.RollAngleIgnoresWholeTurns | src/game/behaviors/clock_arm.inc.c:7 | adding whole turns to the roll does not change the angle the behaviour sees |
| ClockArm.SpeedForAngle | src/game/behaviors/clock_arm.inc.c:26-36 | each speed setting is chosen exactly on its arcs of the dial, with STOPPED on both ends |
| ClockArm.NextAction | src/game/behaviors/clock_arm.inc.c:13-46 | WAIT becomes MOVING exactly when the timer is at least 4; MOVING becomes STOPPED exactly when the TTC painting is entered; STOPPED becomes MOVING exactly when no painting is entered |
| ClockArm.NextSpeed | src/game/behaviors/clock_arm.inc.c:19-41 | only the minute hand leaving MOVING for the TTC painting writes the speed, and then it writes the classification of its angle |
| ClockArm.LoopSpec | src/game/behaviors/clock_arm.inc.c:13-51 | the new action is NextAction's, and the hand turns by its angular velocity exactly when that action is WAIT or MOVING; timer, previous action and velocity are untouched |
| ClockArm.EngineTick | src/game/behaviors/clock_arm.inc.c:13-16 | the engine's timer rule as the hand sees it: counting up, restarting after a change of action |
| ClockArm.RunKeepsActionValid | src/game/behaviors/clock_arm.inc.c:13-46 | over any run of frames the action stays within WAIT, MOVING, STOPPED |
| ClockArm.WaitsWhileTimerBelowFour | src/game/behaviors/clock_arm.inc.c:13-16 | a waiting hand keeps waiting while its timer is below 4, the timer counting the frames |
| ClockArm.WaitEndsOnFifthFrame | src/game/behaviors/clock_arm.inc.c:13-16 | a freshly spawned hand is MOVING after five frames, with its timer restarted |
| ClockArm.TtcSettings.constructor | src/game/behaviors/clock_arm.inc.c:26-36 | gTTCSpeedSetting, the global the minute hand writes, holds the given setting |
| ClockArm.ClockHand.constructor | src/game/behaviors/clock_arm.inc.c:13-16 | a new hand waits with its timer at 0, keeping its angles and angular velocity |
| ClockArm.ClockHand.Loop | src/game/behaviors/clock_arm.inc.c:6-52 | bhv_rotating_clock_arm_loop changes the hand as LoopSpec says and the speed setting as NextSpeed says |
| ClockArm.ClockHand.Tick | src/game/behaviors/clock_arm.inc.c:14 | the engine's per-frame timer update, as EngineTick states it |
| BowserPuzzleSchedule.Inverse | src/game/behaviors/bowser_puzzle_piece.c:33-34 | the inverse of a valid action is a valid action, and it is IDLE exactly for IDLE |
| BowserPuzzleSchedule.InverseInvolution | src/game/behaviors/bowser_puzzle_piece.c:33-34 | inverting a direction twice gives it back |
| BowserPuzzleSchedule.ScheduledAction | src/game/behaviors/bowser_puzzle_piece.c:28-37 | the schedule described above the tables always gives a valid action |
| BowserPuzzleSchedule.Table01FollowsSchedule | src/game/behaviors/bowser_puzzle_piece.c:38-39 | sPieceActions01 is the schedule of piece 1 |
| BowserPuzzleSchedule.Table02FollowsSchedule | src/game/behaviors/bowser_puzzle_piece.c:40-41 | sPieceActions02 is the schedule of piece 2 |
| BowserPuzzleSchedule.Table05FollowsSchedule | src/game/behaviors/bowser_puzzle_piece.c:42-43 | sPieceActions05 is the schedule of piece 5 |
| BowserPuzzleSchedule.Table06FollowsSchedule | src/game/behaviors/bowser_puzzle_piece.c:44-45 | sPieceActions06 is the schedule of piece 6 |
| BowserPuzzleSchedule.Table10FollowsSchedule | src/game/behaviors/bowser_puzzle_piece.c:46-47 | sPieceActions10 is the schedule of piece 10 |
| BowserPuzzleSchedule.Table09FollowsSchedule | src/game/behaviors/bowser_puzzle_piece.c:48-49 | sPieceActions09 is the schedule of piece 9 |
| BowserPuzzleSchedule.Table13FollowsSchedule | src/game/behaviors/bowser_puzzle_piece.c:50-51 | sPieceActions13 is the schedule of piece 13 |
| BowserPuzzleSchedule.Table12FollowsSchedule | src/game/behaviors/bowser_puzzle_piece.c:52-53 | sPieceActions12 is the schedule of piece 12 |
| BowserPuzzleSchedule.Table08FollowsSchedule | src/game/behaviors/bowser_puzzle_piece.c:54-55 | sPieceActions08 is the schedule of piece 8 |
| BowserPuzzleSchedule.Table07FollowsSchedule | src/game/behaviors/bowser_puzzle_piece.c:56-57 | sPieceActions07 is the schedule of piece 7 |
| BowserPuzzleSchedule.Table03FollowsSchedule | src/game/behaviors/bowser_puzzle_piece.c:58-59 | sPieceActions03 is the schedule of piece 3 |
| BowserPuzzleSchedule.Table04FollowsSchedule | src/game/behaviors/bowser_puzzle_piece.c:60-61 | sPieceActions04 is the schedule of piece 4 |
| BowserPuzzleSchedule.Table11FollowsSchedule | src/game/behaviors/bowser_puzzle_piece.c:62-63 | sPieceActions11 is the schedule of piece 11 |
| BowserPuzzleSchedule.Table14FollowsSchedule | src/game/behaviors/bowser_puzzle_piece.c:64-65 | sPieceActions14 is the schedule of piece 14 |
| BowserPuzzleSchedule.TableFollowsSchedule | src/game/behaviors/bowser_puzzle_piece.c:90-105 | entry i of sBowserPuzzlePieces is piece i + 1; its list holds 26 actions and then the -1 terminator, and follows the schedule |
| BowserPuzzleSchedule.ListLengths | src/game/behaviors/bowser_puzzle_piece.c:38-65 | there are 14 pieces, and every list has 27 entries |
| BowserPuzzleSchedule.CornerPiecesStayIdle | src/game/behaviors/bowser_puzzle_piece.c:36 | pieces 11 and 14 never move |
| BowserPuzzleSchedule.AtMostOneMover | src/game/behaviors/bowser_puzzle_piece.c:28-37 | at every list index at most one piece does something other than IDLE |
| BowserPuzzleSchedule.ForwardMover | src/game/behaviors/bowser_puzzle_piece.c:28-31 | on indices 1..12 exactly the next piece of the order 1, 2, 5, 6, 10, 9, 13, 12, 8, 7, 3, 4 moves, in its forward direction |
| BowserPuzzleSchedule.ListMirrored | src/game/behaviors/bowser_puzzle_piece.c:33-34 | every list read backwards is the list with each direction inverted |
| BowserPuzzleSchedule.MirroredWindowBalanced | src/game/behaviors/bowser_puzzle_piece.c:33-34 | a mirrored list holds each direction as often as its inverse |
| BowserPuzzleSchedule.ListBalanced | src/game/behaviors/bowser_puzzle_piece.c:38-65 | every list slides its piece LEFT as often as RIGHT and UP as often as DOWN |
| BowserPuzzleSchedule.ShiftInverse | src/game/behaviors/bowser_puzzle_piece.c:241-255 | sliding one way and then the inverse way returns a piece to its cell |
| BowserPuzzleSchedule.SpawnOffsetsMatchLayout | src/game/behaviors/bowser_puzzle_piece.c:75-105 | the spawn offsets put every piece on its cell of the drawn layout |
| BowserPuzzleSchedule.HomeCellsNumbered | src/game/behaviors/bowser_puzzle_piece.c:75-89 | the layout numbers the pieces row by row, skipping the empty corner and the star platform, all inside the play area |
| BowserPuzzleSchedule.StartValid | src/game/behaviors/bowser_puzzle_piece.c:75-89 | in the starting layout every piece is on its own cell of the play area, and the corner is empty |
| BowserPuzzleSchedule.LegalMoveKeepsValid | src/game/behaviors/bowser_puzzle_piece.c:207-255 | sliding a piece into the empty cell keeps the pieces apart and inside the play area |
| BowserPuzzleSchedule.UndoMove | src/game/behaviors/bowser_puzzle_piece.c:33-34 | the inverse slide is legal afterwards and restores the board |
| BowserPuzzleSchedule.ForwardMoversDistinct | src/game/behaviors/bowser_puzzle_piece.c:28-31 | no piece moves twice in the forward pass |
| BowserPuzzleSchedule.ForwardChain | src/game/behaviors/bowser_puzzle_piece.c:28-31 | each forward mover slides into the cell the previous mover left |
| BowserPuzzleSchedule.ForwardBoardShape | src/game/behaviors/bowser_puzzle_piece.c:28-31 | during the forward pass the pieces still to move are at home, and the empty cell is where the last mover started |
| BowserPuzzleSchedule.ForwardMoveLegal | src/game/behaviors/bowser_puzzle_piece.c:28-31 | every forward move slides its piece into the empty cell |
| BowserPuzzleSchedule.ForwardPassValid | src/game/behaviors/bowser_puzzle_piece.c:28-37 | every board of the forward pass is valid |
| BowserPuzzleSchedule.ScheduledMover | src/game/behaviors/bowser_puzzle_piece.c:38-65 | a piece that acts at index k is the piece of that index's move, going that move's way |
| BowserPuzzleSchedule.StepAllMoves | src/game/behaviors/bowser_puzzle_piece.c:38-65 | at indices 1..24 the lockstep lists perform exactly one move of the forward pass or of its undoing |
| BowserPuzzleSchedule.StepAllIdle | src/game/behaviors/bowser_puzzle_piece.c:38-65 | the first and the last index leave the board unchanged |
| BowserPuzzleSchedule.BoardAfterStep | src/game/behaviors/bowser_puzzle_piece.c:38-65 | index k moves piece i by its own action only |
| BowserPuzzleSchedule.StepMoveAdvancesPass | src/game/behaviors/bowser_puzzle_piece.c:28-34 | each index moves the board one step along the forward pass, then back along it |
| BowserPuzzleSchedule.BoardAfterFollowsForwardPass | src/game/behaviors/bowser_puzzle_piece.c:28-37 | the lists, run in lockstep, show the forward pass and then its undoing in reverse order |
| BowserPuzzleSchedule.PiecesNeverOverlap | src/game/behaviors/bowser_puzzle_piece.c:38-105 | at every index all pieces are on distinct cells of the play area |
| BowserPuzzleSchedule.StepMoveLegal | src/game/behaviors/bowser_puzzle_piece.c:38-105 | the move of every index is legal on the board it is made on |
| BowserPuzzleSchedule.LegalMoveTargetFree | src/game/behaviors/bowser_puzzle_piece.c:207-255 | a legal slide ends on a free cell of the play area |
| BowserPuzzleSchedule.MoverSlidesIntoEmptyCell | src/game/behaviors/bowser_puzzle_piece.c:38-105 | whenever a piece slides, it slides into a cell of the play area that no piece occupies |
| BowserPuzzleSchedule.PuzzleReturnsHome | src/game/behaviors/bowser_puzzle_piece.c:33-34 | after the 26 indices every piece is home again |
| BowserPuzzleSchedule.BoardsPalindromic | src/game/behaviors/bowser_puzzle_piece.c:33-34 | the board after 26 - k indices is the board after k |
| BowserPuzzle.PieceUpdate | src/game/behaviors/bowser_puzzle_piece.c:184-204 | when the entry is over, the next entry's action starts with its timer at 0, the pointer advances and is rewound at the terminator, and the piece is continuing; otherwise nothing changes |
| BowserPuzzle.PieceFlags | src/game/behaviors/bowser_puzzle_piece.c:179-197 | Mario on the piece assigns MARIO_ON_PLATFORM, erasing PUZZLE_COMPLETE; a wrap ORs in PUZZLE_COMPLETE; no other bit changes |
| BowserPuzzle.IdleAction | src/game/behaviors/bowser_puzzle_piece.c:233-239 | IDLE stops continuing exactly once its timer reaches 24 and changes nothing else |
| BowserPuzzle.MoveAction | src/game/behaviors/bowser_puzzle_piece.c:207-231 | a move shakes on frames 0..19 (down on even frames), slides on the next `duration` frames, then sets IDLE and ends the entry |
| BowserPuzzle.ActionFunction | src/game/behaviors/bowser_puzzle_piece.c:241-263 | the action table runs IDLE, or a move of 128 per frame for 4 frames in the action's direction |
| BowserPuzzle.PieceLoop | src/game/behaviors/bowser_puzzle_piece.c:265-270 | a behaviour call keeps the invariant; a finished entry is replaced by the next one, its timer at 0, the pointer advancing or rewinding |
| BowserPuzzle.PieceFrame | src/game/behaviors/bowser_puzzle_piece.c:265-270 | a frame of a piece keeps its pointer inside the list and its action valid |
| BowserPuzzle.PieceFramesKeepInv | src/game/behaviors/bowser_puzzle_piece.c:265-270 | the invariant holds on every frame |
| BowserPuzzle.EntryFirstFrame | src/game/behaviors/bowser_puzzle_piece.c:184-210 | the first frame of an entry starts its action, and a move begins to shake |
| BowserPuzzle.EntryNextFrame | src/game/behaviors/bowser_puzzle_piece.c:207-239 | each of frames 2..24 of an entry is a shake frame, a slide frame or an idle wait |
| BowserPuzzle.EntryProgress | src/game/behaviors/bowser_puzzle_piece.c:207-239 | during the first 24 frames of an entry the timer counts them, and a move shakes and then slides |
| BowserPuzzle.EntryTakes25Frames | src/game/behaviors/bowser_puzzle_piece.c:207-239 | every entry, moving or idle, lasts exactly 25 frames and slides the piece four frames of 128 in its direction |
| BowserPuzzle.EntryLastFrame | src/game/behaviors/bowser_puzzle_piece.c:221-238 | the 25th frame ends the entry |
| BowserPuzzle.EntryNotOverEarly | src/game/behaviors/bowser_puzzle_piece.c:185-239 | before its 25th frame an entry is still running its own action |
| BowserPuzzle.InitialActionNeverRuns | src/game/behaviors/bowser_puzzle_piece.c:117 | the initial action set at spawn is replaced by the list's first action before any action function runs, and is still list[0] after the first frame |
| BowserPuzzle.EntryStarts | src/game/behaviors/bowser_puzzle_piece.c:184-204 | every 25 frames a piece starts its next entry, the pointer cycling through the 26 entries |
| BowserPuzzle.CompleteRaisedOncePerCycle | src/game/behaviors/bowser_puzzle_piece.c:193-197 | a piece raises PUZZLE_COMPLETE exactly on frames 625, 1275, ...: once in every 650 |
| BowserPuzzle.EntryMovesOneCell | src/game/behaviors/bowser_puzzle_piece.c:241-255 | four frames of 128 are one piece width of 512: an entry moves a piece one cell |
| BowserPuzzle.NoShakeBetweenEntries | src/game/behaviors/bowser_puzzle_piece.c:209-210 | at the start of every entry the piece rests at its normal height |
| BowserPuzzle.PieceFollowsPath | src/game/behaviors/bowser_puzzle_piece.c:218-220 | after j entries a piece is offset from home by the cells its list has taken it through |
| BowserPuzzle.EntryOffsets | src/game/behaviors/bowser_puzzle_piece.c:218-220 | entry j slides the piece by its action |
| BowserPuzzle.BoardPath | src/game/behaviors/bowser_puzzle_piece.c:75-105 | piece i's cells on the board start at its home cell |
| BowserPuzzle.BoardPathFollowsList | src/game/behaviors/bowser_puzzle_piece.c:38-65 | the cells piece i visits on the lockstep board follow its own list |
| BowserPuzzle.SpawnAtListStart | src/game/behaviors/bowser_puzzle_piece.c:90-120 | every entry of sBowserPuzzlePieces spawns a piece with a valid initial action at the head of a well-formed list |
| BowserPuzzle.PieceTracksBoard | src/game/behaviors/bowser_puzzle_piece.c:265-270 | 25 j frames after spawning, each piece stands where the lockstep board puts it after j entries |
| BowserPuzzle.PieceReturnsHome | src/game/behaviors/bowser_puzzle_piece.c:28-34 | after 650 frames every piece is back home at rest, about to start its list again |
| BowserPuzzle.ParentLoop | src/game/behaviors/bowser_puzzle_piece.c:144-171 | coins are spawned exactly when waiting with both flags set and Mario within 1000, then five coins, flags cleared and DONE; otherwise WAIT and DONE change nothing; SPAWN_PIECES moves to WAIT |
| BowserPuzzle.PiecesSpawnOnce | src/game/behaviors/bowser_puzzle_piece.c:137-138 | once the parent has left SPAWN_PIECES it never returns there, whatever the flags and distances, so the pieces are spawned once |
| BowserPuzzle.CoinsSpawnAtMostOnce | src/game/behaviors/bowser_puzzle_piece.c:152-169 | whatever the pieces write into the flags, the parent spawns its five coins at most once |
| BowserPuzzle.MarioFlagErasesCompletion | src/game/behaviors/bowser_puzzle_piece.c:180-182 | Mario stepping on a piece that does not wrap leaves only MARIO_ON_PLATFORM, dropping an earlier completion |
| BowserPuzzle.MarioOnWrappingPieceSolves | src/game/behaviors/bowser_puzzle_piece.c:180-197 | Mario on a piece whose list wraps this frame leaves both flags set |
| BowserPuzzle.SpawnOffsetsExact | src/game/behaviors/bowser_puzzle_piece.c:131-132 | every spawn offset times 512 / 10 is a whole multiple of 256, so the float arithmetic is exact |
| BowserPuzzle.Puzzle.SpawnPieces | src/game/behaviors/bowser_puzzle_piece.c:125-139 | fourteen new pieces, piece k spawned from entry k with its list, action and position, then WAIT_FOR_COMPLETE |
| BowserPuzzle.Puzzle.Loop | src/game/behaviors/bowser_puzzle_piece.c:144-171 | bhv_lll_bowser_puzzle_loop changes the parent as ParentLoop says, spawning the pieces only from SPAWN_PIECES |
| BowserPuzzle.Puzzle.constructor | src/game/behaviors/bowser_puzzle_piece.c:146-149 | a new puzzle starts in SPAWN_PIECES with no flags, no coins and no pieces |
| BowserPuzzle.Piece.constructor | src/game/behaviors/bowser_puzzle_piece.c:110-120 | a spawned piece has its list, its pointer at the list head, its initial action and its position |
| BowserPuzzle.Piece.Update | src/game/behaviors/bowser_puzzle_piece.c:176-205 | bhv_lll_bowser_puzzle_piece_update changes the piece as PieceUpdate says and the parent's flags as PieceFlags says |
| BowserPuzzle.Piece.RunIdle | src/game/behaviors/bowser_puzzle_piece.c:233-239 | the idle action function changes the piece as IdleAction says |
| BowserPuzzle.Piece.RunMove | src/game/behaviors/bowser_puzzle_piece.c:207-231 | the move action function changes the piece as MoveAction says |
| BowserPuzzle.Piece.CallActionFunction | src/game/behaviors/bowser_puzzle_piece.c:257-268 | the call through sBowserPuzzlePieceActions changes the piece as ActionFunction says |
| BowserPuzzle.Piece.Loop | src/game/behaviors/bowser_puzzle_piece.c:265-270 | a frame of the piece's behaviour updates, acts, places the piece at home plus its offset, and keeps the piece's invariant |
| BowserPuzzle.Piece.Tick | src/game/behaviors/bowser_puzzle_piece.c:209 | the engine's timer update that the piece's timing checks rely on; it keeps the piece's invariant |

## Left out

- The object engine (object update loop, spawn_object, cur_obj_change_action, the action timer, object processing order) is not part of this model. Its timer rule is stated once in `ObjectTimer` and the behaviours' classes take it as their `Tick` method. The order in which the parent and the fourteen pieces run within one frame is not modelled; the frame lemmas follow one piece at a time.
- Enum values defined outside the shown files (the piece, parent and clock actions, the completion flags, the painting id) are constants here. `PAGE_MEMORY_STEP`, `VIRTUAL_RAM_START` and `VIRTUAL_RAM_END` are constructor parameters.
- `try_read_word_aligned`, `is_valid_ram_addr`, `cs_clamp_view_to_selection` and `cs_inc_setting` are function parameters. `open_address_select` is represented by the returned popup seed.
- PageMemory.MemoryPage.Input: states the display-mode update as `cs_inc_setting(mode, 1)`, because the wrap rule between the setting's bounds HEX..RGBA32 belongs to that unseen function.
- Drawing is reduced to what is drawn per byte: pixel coordinates, colours as RGBA values, row headers, column headers, dividers, scroll bars, the cache writeback, the symbol dividers of the debug-map build and the UNF print path are left out.
- Floating point: piece offsets and positions are `int` (every value they take is an integer, see BowserPuzzle.SpawnOffsetsExact), Mario's distance is a `real`. Sounds are left out.
- ClockArm.ClockHand.constructor: the spawned hand's action, previous action and timer are assumed to start at WAIT (0), 0 and 0, as the spawning code is not part of this model.
- BowserPuzzle.Puzzle.constructor: the puzzle object is assumed to start with its action at SPAWN_PIECES (0), no flags and no coins, as object fields start at zero when the engine spawns it.
- BowserPuzzle.Piece.constructor: the spawned object's previous action, timer and continue flag are assumed to start at 0 and its home at its spawn position, as spawn_object is not part of this model.
- The packed-struct unaligned access is modelled as byte-wise big-endian loads and stores; prefetch hints, compiler attribute macros and the ARM-only `rbit32` are left out. `load_word_unaligned`/`store_word_unaligned` are covered by the 32- and 64-bit variants.
- CommonDefs.DivRoundUp: does not model unsigned wrap-around of `n + d - 1`, because it is stated on natural numbers.
- CommonDefs.AlignIsLeastMultiple: requires that `n + a - 1` does not wrap around 2^32 and that `a` is a power of two; beyond that ALIGN's result is only computed, not characterised.
- Macros.ArrayCount: states the element count only for arrays of fewer than 2^31 elements; beyond that the (s32) cast wraps, which ToS32 computes.
- ClockArm.RollAngle: the face angle is an unbounded `int`; the s32 wrap-around of the object's angle fields is not modelled, only the u16 cast the behaviour makes.
- The action-function call through `sBowserPuzzlePieceActions` is only modelled for actions 0..4; the invariant that the current action is always one of them is proved (BowserPuzzle.PieceFramesKeepInv), so the out-of-table index is never reached.
