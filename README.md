# CHIP-8 virtual machine of ESP32-CHIP8, in Dafny

This project models the CHIP-8 interpreter at the heart of ESP32-CHIP8 and
proves properties of it. The interpreter is the C++ class `chip8`. It has:

- a 4096-byte memory and sixteen byte registers V0..VF;
- the 16-bit index register I and program counter PC;
- a call stack and the delay and sound timers;
- a 64×32 framebuffer of cells that hold 0 or 1, and a display-updated flag.

Its `step_one_cycle` fetches a big-endian opcode and moves PC past it. It
then counts the timers down, drops the display flag, executes the opcode and
releases all keys. The project also models the sixteen-flag `keyboard` it
reads keys from, and the one-bit `ExitButton` latch.

The model has two layers.

- **Module `Semantics`** (`semantics.dfy`) is the reference definition, written as pure functions:
  - a `Machine` value holds the whole interpreter state;
  - `Decode` is the opcode dispatch;
  - one function per instruction family says what that family does;
  - `Cycle` is one complete cycle.

  Where the C++ code reaches no successor state, the outcome is an explicit `Undefined(trap)`:
  - popping an empty `std::stack`, which is undefined behaviour;
  - an unchecked `std::array` index past the end, also undefined behaviour: fetch, FX33, FX55/FX65, EX9E/EXA1, a DXYN pixel;
  - DXYN reading a sprite byte past the end of memory. `memory.at` (components/VM/cpu.cpp:476) then throws `std::out_of_range`, which is defined. When it throws, the rows already drawn and VF stay changed and `clearKeyInput` is skipped. Nothing catches the exception, so the program stops. `Undefined(MemoryOutOfRange)` stands for that end: the cycle has no successor state, and the partial changes are not kept.
- **Module `Cpu`** (`cpu.dfy`) is the interpreter object itself:
  - class `Chip8` keeps memory, V and the framebuffer in arrays that its methods update in place;
  - the loops of DXYN and FX65 and the `std::copy_n` of FX55, the constructor and `load_memory` are `for` loops with invariants;
  - every method is proved to do what the matching `Semantics` function says (`State()` is the abstract value of the object);
  - methods that could run into undefined behaviour require that the function's outcome is `Ok`.

`KeyInput` (`keyboard.dfy`) and `Observer` (`observer.dfy`) model the
keyboard and the exit latch as classes.

The properties are proved about the reference functions, in these modules:

- `InstructionProperties`: single instructions;
- `DrawProperties`: DXYN;
- `Collision`: the value DXYN leaves in VF;
- `CycleProperties`: whole cycles, the initial state and loading a ROM;
- `Encoding`: opcode encoding.

`Bits` holds the byte and bitwise helpers.

Behaviour that is modelled exactly as the C++ code has it:

- DXYN recomputes each row's start from the current VX and VY. VF may be one of them, and it changes while a row is drawn.
- The row start is clamped to 2048, and a pixel at 2048 or beyond is undefined.
- VF after DXYN reflects only the last set sprite bit, not "any collision" as the comment at components/VM/cpu.cpp:467 says. `Collision.FlagAfter` states the rule.
- The arithmetic instructions write VF before VX, and the shifts write VF, then VY, then VX. So with X or Y = F the flag can be overwritten.
- The skips and BNNN keep PC to 12 bits, but EX9E, EXA1 and FX0A wrap it at 16 bits. FX1E and FX29 are plain 16-bit arithmetic.
- FX0A stores the lowest pressed key. It leaves PC on the same instruction when no key is down.

## Model

| member | source | states |
|---|---|---|
| Semantics.FirstNibble | components/VM/cpu.cpp:22-24 | the top four bits of the opcode, shifted down |
| Semantics.SecondNibble | components/VM/cpu.cpp:28-30 | bits 8..11 of the opcode, shifted down (X) |
| Semantics.ThirdNibble | components/VM/cpu.cpp:34-36 | bits 4..7 of the opcode, shifted down (Y) |
| Semantics.LastNibble | components/VM/cpu.cpp:40-42 | the low four bits of the opcode (N) |
| Semantics.LastTwoNibbles | components/VM/cpu.cpp:45-47 | the low byte of the opcode (NN) |
| Semantics.LastThreeNibbles | components/VM/cpu.cpp:51-53 | the low twelve bits of the opcode (NNN) |
| Semantics.Decode | components/VM/cpu.cpp:154-519 | the dispatch: the first nibble, then for the 0, 8, E and F families the low nibble or byte, picks the instruction, with X, Y, N, NN and NNN taken by the masks above; every opcode the switch ignores is `Unrecognized`, which does nothing |
| Semantics.ParseBcd | components/VM/cpu.cpp:61-68 | the hundreds, tens and units digits of a byte, computed with the same remainders and divisions |
| Semantics.Initial | components/VM/cpu.hpp:39-52 | the member initialisers, with the font copied to memory[0..80) as components/VM/cpu.cpp:90-92 does |
| Semantics.LoadRom | components/VM/cpu.cpp:98-101 | std::copy_n of the ROM to memory[512..) |
| Semantics.Fetch | components/VM/cpu.cpp:139-140 | the opcode memory[PC] · 256 + memory[PC + 1] |
| Semantics.BeginCycle | components/VM/cpu.cpp:144-153 | PC + 2 in 16 bits, each timer above 0 decremented, the display flag dropped |
| Semantics.Execute | components/VM/cpu.cpp:154-519 | the switch body: each family's function below, 00E0 clearing the framebuffer and raising the flag (lines 314-317), DXYN as `DrawFrom` followed by raising the flag (line 489), `Unrecognized` leaving the state alone |
| Semantics.ExecAssign | components/VM/cpu.cpp:156-169 | 6XNN and 8XY0, and 7XNN and CXNN from lines 259-281 |
| Semantics.ExecLogic | components/VM/cpu.cpp:207-227 | 8XY1, 8XY2, 8XY3 |
| Semantics.ExecArithmetic | components/VM/cpu.cpp:170-206 | 8XY4, 8XY5, 8XY7, each writing VF before VX |
| Semantics.ExecShift | components/VM/cpu.cpp:228-255 | 8XY6 and 8XYE, writing VF, then VY, then VX |
| Semantics.ExecSkip | components/VM/cpu.cpp:325-369 | 3XNN, 4XNN, 5XY0, 9XY0: PC + 2 modulo 4096 when the comparison holds |
| Semantics.ExecBranch | components/VM/cpu.cpp:283-313 | 1NNN, BNNN, 2NNN, 00EE; 00EE on an empty stack is undefined |
| Semantics.ExecKey | components/VM/cpu.cpp:494-517 | EX9E and EXA1 (a key index of 16 or more is undefined), and FX0A from lines 434-446 |
| Semantics.ExecTimer | components/VM/cpu.cpp:372-392 | FX07, FX15, FX18 |
| Semantics.ExecIndex | components/VM/cpu.cpp:447-463 | ANNN and FX1E, and FX29 from lines 393-400, in 16-bit arithmetic |
| Semantics.ExecMemory | components/VM/cpu.cpp:401-433 | FX33, FX55, FX65; an address past the end of memory is undefined |
| Semantics.RowStart | components/VM/cpu.cpp:474-475 | VX + 64 · (row + VY) in 16 bits, clamped to 2048 |
| Semantics.DrawFrom | components/VM/cpu.cpp:473-488 | the loop over the N sprite rows, each row starting from the current V |
| Semantics.SpriteRow | components/VM/cpu.cpp:474-477 | one row: the sprite byte at (I + row) mod 65536, undefined past the end of memory |
| Semantics.BlitFrom | components/VM/cpu.cpp:478-487 | the loop over the eight bits, most significant first; a set bit past the framebuffer is undefined |
| Semantics.Toggle | components/VM/cpu.cpp:480-485 | VF := 1 if the pixel was lit and 0 otherwise, then the pixel XOR 1 |
| Semantics.ParseBcdDigits | components/VM/cpu.cpp:61-68 | parse_BCD yields three digits, each at most 9, whose decimal value 100·h + 10·t + u is the byte |
| Cpu.CopyN | components/VM/cpu.cpp:90-92 | std::copy_n writes `src` at `dst[at..]` and leaves every other cell as it was |
| Cpu.Chip8.constructor | components/VM/cpu.cpp:90-96 | a new interpreter is in exactly the `Initial` state for the keyboard it is given: the font at memory[0..80), PC = 512, everything else zero or empty. The driver's `chip8 emulator;` (components/CHIP8/chip8.cpp:77) uses the default constructor, whose keyboard comes from the member initialiser at components/VM/cpu.hpp:44; it corresponds to `new Chip8(new Keyboard())` |
| Cpu.Chip8.GetVRegisters | components/VM/cpu.cpp:121 | get_V_registers: the sixteen registers |
| Cpu.Chip8.GetMemoryDump | components/VM/cpu.cpp:123 | get_memory_dump: the 4096 bytes of memory |
| Cpu.Chip8.GetStack | components/VM/cpu.cpp:124 | get_stack: the call stack, top last |
| Cpu.Chip8.GetProgCounter | components/VM/cpu.cpp:126 | get_prog_counter |
| Cpu.Chip8.GetDelayCounter | components/VM/cpu.cpp:127 | get_delay_counter |
| Cpu.Chip8.GetSoundCounter | components/VM/cpu.cpp:128 | get_sound_counter |
| Cpu.Chip8.GetIRegister | components/VM/cpu.cpp:130 | get_I_register |
| Cpu.Chip8.GetDisplayFlag | components/VM/cpu.cpp:131 | get_display_flag |
| Cpu.Chip8.GetDisplayPixels | components/VM/cpu.cpp:133-135 | get_display_pixels: the 2048 framebuffer cells |
| CycleProperties.InitialState | components/VM/cpu.hpp:39-52 | the initial state has PC = 512, I = 0, both timers 0, V all zero, an empty stack, a dark framebuffer, the display flag false, the font at 0..80 and zeros above it |
| Cpu.Chip8.LoadMemory | components/VM/cpu.cpp:98-101 | load_memory changes the memory exactly as `LoadRom` says, for ROMs of at most 3584 bytes |
| CycleProperties.LoadRomPlacement | components/VM/cpu.cpp:98-101 | the ROM lands at memory[512..512+\|rom\|); every other byte (the font included) and the rest of the state are unchanged |
| Semantics.Cycle | components/VM/cpu.cpp:519-521 | after every defined cycle all key flags are released |
| Cpu.Chip8.StepOneCycle | components/VM/cpu.cpp:137-522 | one cycle on the object yields exactly the state the reference `Cycle` gives, with the arrays updated in place |
| Cpu.Chip8.Execute | components/VM/cpu.cpp:154-519 | the dispatch on a decoded opcode yields the reference `Execute` result |
| Cpu.Chip8.ExecuteRegisterOp | components/VM/cpu.cpp:154-281 | the register and timer instructions yield the reference result |
| Cpu.Chip8.ExecuteOtherOp | components/VM/cpu.cpp:283-517 | control flow, keys, I, memory and display instructions yield the reference result, whatever the random byte |
| Cpu.Chip8.Assign | components/VM/cpu.cpp:156-169 | 6XNN and 8XY0 (and 7XNN and CXNN, lines 259-281) update V as `ExecAssign` says and nothing else |
| Cpu.Chip8.Logic | components/VM/cpu.cpp:207-227 | 8XY1, 8XY2 and 8XY3 update V as `ExecLogic` says |
| Cpu.Chip8.Arithmetic | components/VM/cpu.cpp:170-206 | 8XY4, 8XY5 and 8XY7, with VF written before VX, update V as `ExecArithmetic` says |
| Cpu.Chip8.Shift | components/VM/cpu.cpp:228-255 | 8XY6 and 8XYE write VF, then VY, then VX, as `ExecShift` says |
| Cpu.Chip8.Skip | components/VM/cpu.cpp:325-369 | 3XNN, 4XNN, 5XY0 and 9XY0 move PC as `ExecSkip` says and change no register or memory |
| Cpu.Chip8.Branch | components/VM/cpu.cpp:283-313 | 1NNN, BNNN, 2NNN and 00EE move PC and the stack as `ExecBranch` says |
| Cpu.Chip8.KeyOp | components/VM/cpu.cpp:494-517 | EX9E and EXA1 (and FX0A, lines 434-446) query the keyboard and act as `ExecKey` says |
| Cpu.Chip8.TimerOp | components/VM/cpu.cpp:372-392 | FX07, FX15 and FX18 act as `ExecTimer` says |
| Cpu.Chip8.IndexOp | components/VM/cpu.cpp:447-463 | FX1E and ANNN (and FX29, lines 393-400) set I as `ExecIndex` says |
| Cpu.Chip8.MemoryOp | components/VM/cpu.cpp:401-433 | FX33, FX55 and FX65 act as `ExecMemory` says |
| Cpu.Chip8.LoadRegisters | components/VM/cpu.cpp:422-433 | the FX65 loop puts memory[I..I+X] into V0..VX, keeps the higher registers and advances I by X + 1 modulo 2^16 |
| Cpu.Chip8.DrawSprite | components/VM/cpu.cpp:469-489 | the DXYN loop over rows gives the reference `DrawFrom` result |
| Cpu.Chip8.DrawSpriteRow | components/VM/cpu.cpp:474-477 | one row starts at the clamped row start and reads the sprite byte at I + row, as `SpriteRow` says |
| Cpu.Chip8.BlitRow | components/VM/cpu.cpp:479-487 | the loop over the eight bits of a sprite row gives the reference `BlitFrom` result |
| Cpu.Chip8.ToggleCell | components/VM/cpu.cpp:480-485 | a set sprite bit clears VF, sets it when the pixel was lit, and flips the pixel |
| InstructionProperties.AddSetsCarry | components/VM/cpu.cpp:170-180 | for X ≠ F, 8XY4 leaves VX = (VX + VY) mod 256 and VF = 1 iff VX + VY > 255; nothing else changes |
| InstructionProperties.AddIntoFlagLosesCarry | components/VM/cpu.cpp:176-177 | for X = F, 8XY4 overwrites the carry with the sum |
| InstructionProperties.SubSetsNoBorrow | components/VM/cpu.cpp:181-193 | 8XY5 sets VF = 1 iff VX > VY and VX = (VX − VY) mod 256; nothing else changes |
| InstructionProperties.SubReverseSetsNoBorrow | components/VM/cpu.cpp:194-206 | 8XY7 sets VF = 1 iff VY > VX and VX = (VY − VX) mod 256; nothing else changes |
| InstructionProperties.AddImmWraps | components/VM/cpu.cpp:259-268 | 7XNN sets VX = (VX + NN) mod 256 and leaves every other register, VF included, unchanged |
| InstructionProperties.RandomWithinMask | components/VM/cpu.cpp:271-281 | whatever byte is drawn, CXNN leaves VX with no bit outside NN and leaves the other registers alone |
| InstructionProperties.LogicWritesOnlyVx | components/VM/cpu.cpp:207-227 | 8XY1, 8XY2 and 8XY3 change VX only, not VF |
| InstructionProperties.ShiftRightMovesLowBit | components/VM/cpu.cpp:228-240 | 8XY6 puts the low bit of VY in VF and VY / 2 in both VY and VX |
| InstructionProperties.ShiftLeftMovesHighBit | components/VM/cpu.cpp:241-255 | 8XYE puts the high bit of VY in VF and 2·VY mod 256 in both VY and VX |
| InstructionProperties.CallThenReturn | components/VM/cpu.cpp:299-313 | 2NNN pushes PC and jumps to NNN; a following 00EE gives back exactly the state before the call |
| InstructionProperties.ReturnPops | components/VM/cpu.cpp:307-313 | 00EE is undefined exactly on an empty stack; otherwise it pops the top into PC and changes nothing else |
| InstructionProperties.JumpOffsetInMemory | components/VM/cpu.cpp:291-296 | BNNN jumps to (NNN + V0) mod 4096, always inside memory |
| InstructionProperties.StoreBcdWritesDigits | components/VM/cpu.cpp:401-411 | FX33 is defined iff I + 2 < 4096; it writes the decimal digits of VX at I, I+1, I+2 and changes nothing else |
| InstructionProperties.StoreRegsCopies | components/VM/cpu.cpp:412-421 | FX55 is defined iff I + X < 4096; it copies V0..VX to memory[I..I+X], changes no other byte and advances I by X + 1 |
| InstructionProperties.LoadRegsCopies | components/VM/cpu.cpp:422-433 | FX65 is defined iff I + X < 4096; it loads V0..VX from memory[I..I+X], keeps the higher registers and advances I by X + 1 |
| InstructionProperties.StoreThenLoadRestores | components/VM/cpu.cpp:412-433 | FX55 then FX65 with the same X, from the same I and with the stored bytes in place, restores V0..VX and leaves I where FX55 left it |
| InstructionProperties.FontGlyphAddressesGlyph | components/VM/cpu.cpp:393-400 | with the font in place and VX < 16, FX29 points I at the five bytes of that digit's glyph |
| InstructionProperties.SetDelayThenLoad | components/VM/cpu.cpp:372-385 | composing the instruction functions directly, with no countdown between them: FX15 then FX07 reads back the value written to the delay timer |
| InstructionProperties.ClearScreenDarkens | components/VM/cpu.cpp:314-317 | 00E0 sets every framebuffer cell to 0 and raises the display flag; nothing else changes |
| DrawProperties.BlitFrame | components/VM/cpu.cpp:479-487 | the bits of a sprite row change only the framebuffer and VF, and VF ends up unchanged or 0/1 |
| DrawProperties.DrawFrame | components/VM/cpu.cpp:473-488 | the rows of DXYN change only the framebuffer and VF |
| DrawProperties.BlitBinary | components/VM/cpu.cpp:479-487 | a sprite row keeps every cell in {0, 1} |
| DrawProperties.DrawBinary | components/VM/cpu.cpp:473-488 | the rows of DXYN keep every cell in {0, 1} |
| DrawProperties.DrawKeepsBinary | components/VM/cpu.cpp:469-492 | DXYN changes only V and the framebuffer, raises the display flag and keeps every cell in {0, 1} |
| DrawProperties.BlankRowChangesNothing | components/VM/cpu.cpp:479-487 | a sprite row with no set bits changes nothing, VF included |
| DrawProperties.CollisionFlagFollowsLastBit | components/VM/cpu.cpp:480-484 | a collision on the first set bit is forgotten when the last set bit lands on a dark pixel: VF ends up 0 |
| DrawProperties.FlipsParity | components/VM/cpu.cpp:485 | on a 0/1 framebuffer, a cell flipped by a list of cells ends up changed iff it occurs an odd number of times |
| DrawProperties.BlitDefined | components/VM/cpu.cpp:479-487 | a sprite row is drawn without fault iff every set bit lands inside the framebuffer |
| DrawProperties.BlitIsFlips | components/VM/cpu.cpp:479-487 | a sprite row drawn without fault flips exactly the cells of its set bits, in order |
| DrawProperties.DrawDefinedExactly | components/VM/cpu.cpp:473-488 | for X, Y ≠ F, DXYN is defined iff every sprite byte is inside memory and every set bit lands inside the framebuffer |
| DrawProperties.DrawIsFlips | components/VM/cpu.cpp:473-488 | for X, Y ≠ F, DXYN drawn without fault flips exactly the cells of all set bits, row by row |
| DrawProperties.FlipsTwice | components/VM/cpu.cpp:485 | flipping the same cells twice gives a 0/1 framebuffer back |
| DrawProperties.DrawTwiceRestores | components/VM/cpu.cpp:473-488 | for X, Y ≠ F, drawing the same sprite again with the same VX, VY, I and memory restores the framebuffer |
| DrawProperties.DrawInstructionTwice | components/VM/cpu.cpp:469-492 | for X, Y ≠ F, executing the same DXYN twice leaves the framebuffer as it was and the display flag raised |
| Collision.FlagAfter | components/VM/cpu.cpp:480-485 | VF after a list of cells is flipped in order: each flip sets VF to the cell's value before it, 1 if lit and 0 if dark |
| Collision.FlagAfterAppend | components/VM/cpu.cpp:478-488 | the flag after two runs of flips is the flag after the second run, started from what the first left |
| Collision.FlagAfterIsLastCell | components/VM/cpu.cpp:480-485 | with no flip VF is unchanged; otherwise it is the value the last flipped cell had just before its own flip, so earlier collisions are forgotten |
| Collision.ToggleFlag | components/VM/cpu.cpp:480-485 | on a 0/1 framebuffer a set bit leaves in VF the pixel's old value and flips the pixel |
| Collision.BlitCollision | components/VM/cpu.cpp:478-487 | on a 0/1 framebuffer, a sprite row drawn without fault leaves VF as `FlagAfter` of its cells: unchanged without set bits, otherwise the old value of the last pixel hit |
| Collision.SpriteRowCollision | components/VM/cpu.cpp:474-487 | the same for one row of DXYN with X, Y ≠ F, which also flips the row's cells and keeps the framebuffer 0/1 |
| Collision.DrawCollision | components/VM/cpu.cpp:473-488 | for X, Y ≠ F on a 0/1 framebuffer, the rows of DXYN drawn without fault leave VF as `FlagAfter` of all the cells they flip |
| Collision.DrawInstructionCollision | components/VM/cpu.cpp:469-492 | the same for a completed DXYN instruction |
| CycleProperties.FetchIsBigEndian | components/VM/cpu.cpp:139-140 | the opcode's high byte is memory[PC] and its low byte memory[PC + 1] |
| CycleProperties.ExecuteFrame | components/VM/cpu.cpp:154-519 | only skips, branches and key instructions move PC; only FX15 and FX18 set the timers; only 00E0 and DXYN touch the framebuffer, and they raise the display flag, which nothing else changes; no instruction touches the keys |
| CycleProperties.AssignLogicFrame | components/VM/cpu.cpp:154-281 | the assignment and logic instructions are always defined and stay within that frame |
| CycleProperties.ArithmeticTimerFrame | components/VM/cpu.cpp:154-281 | the arithmetic, shift and timer instructions are always defined and stay within that frame |
| CycleProperties.OtherOpFrame | components/VM/cpu.cpp:283-517 | the remaining instructions stay within that frame |
| CycleProperties.CycleAdvances | components/VM/cpu.cpp:137-153 | fetching past the end of memory is undefined; otherwise PC ends 2 further on (unless a skip, branch or key instruction moves it), each timer above 0 drops by one while a zero timer stays 0 (unless FX15 or FX18 sets it), and the display flag is up after the cycle exactly when it ran 00E0 or DXYN |
| CycleProperties.SkipCycle | components/VM/cpu.cpp:325-369 | a conditional skip ends the cycle with PC = (PC + 4) mod 4096 when its comparison holds (VX = NN, VX ≠ NN, VX = VY, VX ≠ VY) and PC + 2 otherwise, with V and memory unchanged |
| CycleProperties.KeySkipCycle | components/VM/cpu.cpp:494-517 | EX9E and EXA1 are defined exactly when VX < 16; then PC ends at PC + 4 when the key is down (EX9E) or up (EXA1) and at PC + 2 otherwise, with V and memory unchanged |
| CycleProperties.JumpCycle | components/VM/cpu.cpp:283-289 | 1NNN ends the cycle with PC = NNN and the stack and V unchanged |
| CycleProperties.SetDelayThenLoadCycle | components/VM/cpu.cpp:146-148 | an FX15 cycle followed by an FX07 cycle: the second cycle's countdown runs first, so VY gets VX − 1, or 0 when VX was 0 |
| CycleProperties.WaitKeyCycle | components/VM/cpu.cpp:434-446 | FX0A with no key down leaves PC and V as they were; with a key down VX gets the lowest pressed key and PC moves on |
| CycleProperties.CallCycle | components/VM/cpu.cpp:299-304 | 2NNN pushes the address of the next instruction and jumps to NNN |
| CycleProperties.CallThenReturnCycle | components/VM/cpu.cpp:299-313 | a 00EE that finds the stack 2NNN left resumes right after the call, with the stack as it was before |
| CycleProperties.ExecuteKeepsBinary | components/VM/cpu.cpp:154-519 | every instruction keeps every framebuffer cell in {0, 1} |
| CycleProperties.RunKeepsInvariants | components/VM/cpu.cpp:137-522 | any run of cycles keeps the framebuffer 0/1 and leaves all key flags released after each cycle |
| CycleProperties.ReachableDisplayBinary | components/VM/cpu.cpp:90-101 | every state reachable from a new interpreter with a ROM loaded has a 0/1 framebuffer |
| Encoding.DecodeEncode | components/VM/cpu.cpp:154-519 | decoding the canonical opcode of any instruction gives that instruction back |
| Encoding.DecodeEncodeControl | components/VM/cpu.cpp:283-369 | the same, for 00E0, 00EE, the jumps, call and skips |
| Encoding.DecodeEncodeAssign | components/VM/cpu.cpp:156-281 | the same, for 6XNN, 7XNN, CXNN and 8XY0..8XY3 |
| Encoding.DecodeEncodeArithmetic | components/VM/cpu.cpp:170-255 | the same, for 8XY4..8XYE |
| Encoding.DecodeEncodeKeyIndex | components/VM/cpu.cpp:393-517 | the same, for DXYN, the E family, FX0A, ANNN, FX1E and FX29 |
| Encoding.DecodeEncodeTimerMemory | components/VM/cpu.cpp:372-433 | the same, for FX07, FX15, FX18, FX33, FX55 and FX65 |
| KeyInput.FirstPressed | components/VM/keyboard.cpp:52-54 | the distance to the first pressed key is at most the length; no key before it is pressed, and it is pressed when inside |
| KeyInput.FirstPressedUnique | components/VM/keyboard.cpp:52-54 | those three properties determine the distance |
| KeyInput.Keyboard.IsKeyVxPressed | components/VM/keyboard.cpp:44-49 | for a key index below 16 the answer is that key's flag; the flags are not changed |
| KeyInput.Keyboard.WhichKeyIndexIfPressed | components/VM/keyboard.cpp:51-62 | found iff some key is pressed; then the index is the lowest pressed key, otherwise (false, 16); the flags are not changed |
| KeyInput.Keyboard.ClearKeyInput | components/VM/keyboard.cpp:64-66 | afterwards all sixteen flags are false, from any state |
| Observer.ExitButton.constructor | components/VM/observer.hpp:23 | a new button is not pressed |
| Observer.ExitButton.IsPressed | components/VM/observer.hpp:12-19 | the poll returns the latch and clears it |
| Observer.ExitButton.Update | components/VM/observer.hpp:20 | the callback sets the latch |
| Observer.UpdateTwiceThenPoll | components/VM/observer.hpp:12-20 | two updates and then two polls yield true once, then false |
| Observer.PollFresh | components/VM/observer.hpp:12-23 | polling a new button yields false |

## Left out

- `load_memory(string_view)` (components/VM/cpu.cpp:103-119) reads a file and aborts on failure. This file I/O is not part of this model; the vector overload is.
- CXNN's Mersenne twister is not modelled: the byte it draws is the parameter `rnd` of `Cycle` and `StepOneCycle`.
- The log output and the never-written `instruction` string are left out, since they affect no state the model has.
- `reset()` is declared in components/VM/cpu.hpp:24 but never defined, so there is no behaviour to model.
- The Bluetooth server, the TFT display driver, the driver task and main are not part of this model. They consist of foreign hardware and RTOS calls.
- `keyboard::storeKeyPress` has an empty body, so nothing in the source sets a key flag. `KeyInput.Keyboard.Press` stands for whatever keyboard substitute sets the flags; it is not source behaviour.
- `ExitButton` derives from the abstract `IObserver`, which has no behaviour of its own. The model has only the concrete class.
- `Cpu.Chip8.StepOneCycle` and the handlers it calls require the defined outcome of the reference function. When the source would run into undefined behaviour, the model says which (`Undefined(trap)`) but the object does not go on.
- `Cpu.Chip8.StepOneCycle` treats the keyboard as a separate object: the key flags it clears are `numpad.keys`. The getter `get_Keys_array` returns the interpreter's own key array, which nothing ever writes, and is left out.
- InstructionProperties.AddSetsCarry: stated for X ≠ F; for X = F, AddIntoFlagLosesCarry gives the result.
- InstructionProperties.SubSetsNoBorrow: stated for X, Y ≠ F, where the flag survives the write to VX.
- InstructionProperties.SubReverseSetsNoBorrow: stated for X, Y ≠ F, for the same reason.
- InstructionProperties.ShiftRightMovesLowBit: stated for X, Y ≠ F, where the three writes land on different registers.
- InstructionProperties.ShiftLeftMovesHighBit: stated for X, Y ≠ F, for the same reason.
- InstructionProperties.LogicWritesOnlyVx: when X = F, VF is the register that changes.
- DrawProperties.DrawTwiceRestores: stated for X, Y ≠ F. With X or Y = F the row start moves as VF changes, and a second drawing need not retrace the first.
- DrawProperties.DrawInstructionTwice: stated for X, Y ≠ F, for the same reason.
- DrawProperties.DrawIsFlips: stated for X, Y ≠ F, for the same reason.
- DrawProperties.DrawDefinedExactly: stated for X, Y ≠ F, for the same reason.
- CycleProperties.CycleAdvances: PC + 2 is stated for instructions other than skips, branches and key instructions. SkipCycle, KeySkipCycle, WaitKeyCycle, JumpCycle, CallCycle and CallThenReturnCycle give PC for those; BNNN is covered at instruction level by InstructionProperties.JumpOffsetInMemory.
- Collision.BlitCollision: stated for a 0/1 framebuffer, which every reachable state has (CycleProperties.ReachableDisplayBinary).
- Collision.ToggleFlag: stated for a 0/1 framebuffer, for the same reason.
- Collision.SpriteRowCollision: stated for X, Y ≠ F and a 0/1 framebuffer. With X or Y = F the row start moves as VF changes.
- Collision.DrawCollision: stated for X, Y ≠ F and a 0/1 framebuffer, for the same reasons.
- Collision.DrawInstructionCollision: stated for X, Y ≠ F and a 0/1 framebuffer, for the same reasons.
- Encoding.DecodeEncode: covers canonical opcodes only. The dispatch ignores the last nibble of 5XY0 and 9XY0 and the middle byte of the 0 family, so other opcodes decode to the same instructions.
