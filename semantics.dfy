/** The CHIP-8 interpreter of `chip8::step_one_cycle` as functions on a
    machine-state value. The imperative class in module Cpu is proved to
    follow these functions. */
module Semantics {
  import opened Bits
  import opened KeyInput

  const MemorySize := 4096
  const ProgramStart := 512
  const RegisterCount := 16
  const DisplayWidth := 64
  const DisplayHeight := 32
  const DisplaySize := DisplayWidth * DisplayHeight
  /** Index of the flag register VF. */
  const VF := 0xF

  /** The built-in glyphs for the hex digits 0..F, five bytes each. */
  const FontBytes: seq<uint8> := [
    0xF0, 0x90, 0x90, 0x90, 0xF0, // 0
    0x20, 0x60, 0x20, 0x20, 0x70, // 1
    0xF0, 0x10, 0xF0, 0x80, 0xF0, // 2
    0xF0, 0x10, 0xF0, 0x10, 0xF0, // 3
    0x90, 0x90, 0xF0, 0x10, 0x10, // 4
    0xF0, 0x80, 0xF0, 0x10, 0xF0, // 5
    0xF0, 0x80, 0xF0, 0x90, 0xF0, // 6
    0xF0, 0x10, 0x20, 0x40, 0x40, // 7
    0xF0, 0x90, 0xF0, 0x90, 0xF0, // 8
    0xF0, 0x90, 0xF0, 0x10, 0xF0, // 9
    0xF0, 0x90, 0xF0, 0x90, 0x90, // A
    0xE0, 0x90, 0xE0, 0x90, 0xE0, // B
    0xF0, 0x80, 0x80, 0x80, 0xF0, // C
    0xE0, 0x90, 0x90, 0x90, 0xE0, // D
    0xF0, 0x80, 0xF0, 0x80, 0xF0, // E
    0xF0, 0x80, 0xF0, 0x80, 0x80  // F
  ]

  /** A register index, the X or Y field of an opcode. */
  type Reg = x: int | 0 <= x < 16

  /** The whole interpreter state: memory, V0..VF, the call stack (top is
      last), the framebuffer, PC, I, both timers, the display-updated flag
      and the 16 key flags of the attached keyboard. */
  datatype Machine = Machine(
    mem: seq<uint8>,
    v: seq<uint8>,
    stack: seq<uint16>,
    display: seq<uint8>,
    pc: uint16,
    i: uint16,
    delay: uint8,
    sound: uint8,
    displaySet: bool,
    keys: seq<bool>)

  /** The fixed sizes of the state's arrays. */
  predicate Wf(m: Machine)
  {
    |m.mem| == MemorySize && |m.v| == RegisterCount &&
    |m.display| == DisplaySize && |m.keys| == KeyCount
  }

  /** What the source leaves undefined: popping an empty std::stack, indexing
      a std::array out of range, or the exception memory.at throws. */
  datatype Trap = StackUnderflow | MemoryOutOfRange | KeyOutOfRange | DisplayOutOfRange

  datatype Outcome = Ok(state: Machine) | Undefined(trap: Trap)

  /** The decoded instructions. Decoding inspects only the bits the source's
      switch inspects, so e.g. 0x01EE is a return and 0x5XY7 a skip. */
  datatype Instr =
    | ClearScreen                   // 00E0
    | Return                        // 00EE
    | Jump(nnn: uint16)             // 1NNN
    | Call(nnn: uint16)             // 2NNN
    | SkipEqImm(x: Reg, nn: uint8)  // 3XNN
    | SkipNeImm(x: Reg, nn: uint8)  // 4XNN
    | SkipEqReg(x: Reg, y: Reg)     // 5XY_
    | LoadImm(x: Reg, nn: uint8)    // 6XNN
    | AddImm(x: Reg, nn: uint8)     // 7XNN
    | Move(x: Reg, y: Reg)          // 8XY0
    | Or(x: Reg, y: Reg)            // 8XY1
    | And(x: Reg, y: Reg)           // 8XY2
    | Xor(x: Reg, y: Reg)           // 8XY3
    | Add(x: Reg, y: Reg)           // 8XY4
    | Sub(x: Reg, y: Reg)           // 8XY5
    | ShiftRight(x: Reg, y: Reg)    // 8XY6
    | SubReverse(x: Reg, y: Reg)    // 8XY7
    | ShiftLeft(x: Reg, y: Reg)     // 8XYE
    | SkipNeReg(x: Reg, y: Reg)     // 9XY_
    | SetIndex(nnn: uint16)         // ANNN
    | JumpOffset(nnn: uint16)       // BNNN
    | Random(x: Reg, nn: uint8)     // CXNN
    | Draw(x: Reg, y: Reg, n: Reg)  // DXYN
    | SkipKeyPressed(x: Reg)        // EX9E
    | SkipKeyNotPressed(x: Reg)     // EXA1
    | LoadDelay(x: Reg)             // FX07
    | WaitKey(x: Reg)               // FX0A
    | SetDelay(x: Reg)              // FX15
    | SetSound(x: Reg)              // FX18
    | AddIndex(x: Reg)              // FX1E
    | FontGlyph(x: Reg)             // FX29
    | StoreBcd(x: Reg)              // FX33
    | StoreRegs(x: Reg)             // FX55
    | LoadRegs(x: Reg)              // FX65
    | Unrecognized                  // logged, otherwise ignored
  {
    /** The instruction families, one per handler of the interpreter. */
    predicate IsAssign() { LoadImm? || AddImm? || Move? || Random? }
    predicate IsLogic() { Or? || And? || Xor? }
    predicate IsArithmetic() { Add? || Sub? || SubReverse? }
    predicate IsShift() { ShiftRight? || ShiftLeft? }
    predicate IsSkip() { SkipEqImm? || SkipNeImm? || SkipEqReg? || SkipNeReg? }
    predicate IsBranch() { Jump? || Call? || Return? || JumpOffset? }
    predicate IsKeyOp() { SkipKeyPressed? || SkipKeyNotPressed? || WaitKey? }
    predicate IsTimer() { LoadDelay? || SetDelay? || SetSound? }
    predicate IsIndex() { SetIndex? || AddIndex? || FontGlyph? }
    predicate IsMemory() { StoreBcd? || StoreRegs? || LoadRegs? }
    /** The families that only read and write V and the timers. */
    predicate IsRegisterOp() { IsAssign() || IsLogic() || IsArithmetic() || IsShift() || IsTimer() }
  }

  /** The opcode at PC, most significant byte first. */
  function Fetch(m: Machine): uint16
    requires Wf(m) && m.pc + 1 < MemorySize
  {
    m.mem[m.pc] as int * 0x100 + m.mem[m.pc + 1]
  }

  /** The nibble and byte fields of an opcode (the source's mask helpers). */
  function FirstNibble(op: uint16): Reg { op / 0x1000 }
  function SecondNibble(op: uint16): Reg { (op / 0x100) % 0x10 }
  function ThirdNibble(op: uint16): Reg { (op / 0x10) % 0x10 }
  function LastNibble(op: uint16): Reg { op % 0x10 }
  function LastTwoNibbles(op: uint16): uint8 { op % 0x100 }
  function LastThreeNibbles(op: uint16): uint16 { op % 0x1000 }

  /** The dispatch of step_one_cycle: on the first nibble, then on the
      last nibble (family 8) or the last byte (families 0, E and F). */
  function Decode(op: uint16): Instr
  {
    var x, y, n := SecondNibble(op), ThirdNibble(op), LastNibble(op);
    var nn, nnn := LastTwoNibbles(op), LastThreeNibbles(op);
    match FirstNibble(op)
    case 0x0 =>
      if nn == 0xEE then Return else if nn == 0xE0 then ClearScreen else Unrecognized
    case 0x1 => Jump(nnn)
    case 0x2 => Call(nnn)
    case 0x3 => SkipEqImm(x, nn)
    case 0x4 => SkipNeImm(x, nn)
    case 0x5 => SkipEqReg(x, y)
    case 0x6 => LoadImm(x, nn)
    case 0x7 => AddImm(x, nn)
    case 0x8 =>
      if n == 0x0 then Move(x, y)
      else if n == 0x4 then Add(x, y)
      else if n == 0x5 then Sub(x, y)
      else if n == 0x7 then SubReverse(x, y)
      else if n == 0x2 then And(x, y)
      else if n == 0x1 then Or(x, y)
      else if n == 0x3 then Xor(x, y)
      else if n == 0x6 then ShiftRight(x, y)
      else if n == 0xE then ShiftLeft(x, y)
      else Unrecognized
    case 0x9 => SkipNeReg(x, y)
    case 0xA => SetIndex(nnn)
    case 0xB => JumpOffset(nnn)
    case 0xC => Random(x, nn)
    case 0xD => Draw(x, y, n)
    case 0xE =>
      if nn == 0x9E then SkipKeyPressed(x)
      else if nn == 0xA1 then SkipKeyNotPressed(x)
      else Unrecognized
    case _ =>
      if nn == 0x15 then SetDelay(x)
      else if nn == 0x07 then LoadDelay(x)
      else if nn == 0x18 then SetSound(x)
      else if nn == 0x29 then FontGlyph(x)
      else if nn == 0x33 then StoreBcd(x)
      else if nn == 0x55 then StoreRegs(x)
      else if nn == 0x65 then LoadRegs(x)
      else if nn == 0x0A then WaitKey(x)
      else if nn == 0x1E then AddIndex(x)
      else Unrecognized
  }

  /** Decimal digits of a byte (parse_BCD): hundreds, tens, units. */
  function ParseBcd(number: uint8): (uint8, uint8, uint8)
  {
    var lsb := number % 10;
    var midb := ((number % 100) - lsb) / 10;
    var msb := (number - midb) / 100;
    (msb, midb, lsb)
  }

  /** parse_BCD yields three decimal digits whose value is the byte. */
  lemma ParseBcdDigits(number: uint8)
    ensures var bcd := ParseBcd(number);
      bcd.0 <= 9 && bcd.1 <= 9 && bcd.2 <= 9 && 100 * bcd.0 + 10 * bcd.1 + bcd.2 == number
  {
    var h, r := number / 100, number % 100;
    assert number == 100 * h + r && 0 <= r < 100;
    var t, u := r / 10, r % 10;
    assert r == 10 * t + u && 0 <= u < 10;
    assert number % 10 == u;
    assert (r - u) / 10 == t;
    assert (number - t) / 100 == h;
  }

  /** The state of a freshly constructed interpreter: zeroed memory with
      the font at 0..80, PC at 512, everything else zero or empty. */
  function Initial(keys: seq<bool>): (m: Machine)
    requires |keys| == KeyCount
    ensures Wf(m)
  {
    Machine(
      Overwrite(seq(MemorySize, _ => 0), 0, FontBytes),
      seq(RegisterCount, _ => 0), [], seq(DisplaySize, _ => 0),
      ProgramStart, 0, 0, 0, false, keys)
  }

  /** load_memory: the ROM goes to memory from offset 512 on. */
  function LoadRom(m: Machine, rom: seq<uint8>): Machine
    requires Wf(m) && |rom| <= MemorySize - ProgramStart
  {
    m.(mem := Overwrite(m.mem, ProgramStart, rom))
  }

  /** What every cycle does before dispatch: PC moves past the opcode, the
      timers count down towards zero and the display flag drops. */
  function BeginCycle(m: Machine): Machine
  {
    m.(pc := (m.pc + 2) % 0x1_0000,
       delay := if m.delay > 0 then m.delay - 1 else 0,
       sound := if m.sound > 0 then m.sound - 1 else 0,
       displaySet := false)
  }

  function SetV(m: Machine, x: Reg, value: uint8): Machine
    requires Wf(m)
  {
    m.(v := m.v[x := value])
  }

  /** One step of the interpreter (step_one_cycle); `rnd` stands for the
      byte the random-number generator would produce for CXNN. */
  function Cycle(m: Machine, rnd: uint8): (r: Outcome)
    requires Wf(m)
    ensures r.Ok? ==> Wf(r.state) && AllReleased(r.state.keys)
  {
    if m.pc + 1 >= MemorySize then Undefined(MemoryOutOfRange)
    else
      match Execute(BeginCycle(m), Decode(Fetch(m)), rnd)
      case Undefined(t) => Undefined(t)
      case Ok(m') => Ok(m'.(keys := seq(KeyCount, _ => false)))
  }

  /** The effect of one decoded instruction, by instruction family. */
  function Execute(m: Machine, ins: Instr, rnd: uint8): (r: Outcome)
    requires Wf(m)
    ensures r.Ok? ==> Wf(r.state)
  {
    if ins.IsAssign() then Ok(ExecAssign(m, ins, rnd))
    else if ins.IsLogic() then Ok(ExecLogic(m, ins))
    else if ins.IsArithmetic() then Ok(ExecArithmetic(m, ins))
    else if ins.IsShift() then Ok(ExecShift(m, ins))
    else if ins.IsSkip() then Ok(ExecSkip(m, ins))
    else if ins.IsBranch() then ExecBranch(m, ins)
    else if ins.IsKeyOp() then ExecKey(m, ins)
    else if ins.IsTimer() then Ok(ExecTimer(m, ins))
    else if ins.IsIndex() then Ok(ExecIndex(m, ins))
    else if ins.IsMemory() then ExecMemory(m, ins)
    else if ins.ClearScreen? then Ok(m.(display := seq(DisplaySize, _ => 0), displaySet := true))
    else if ins.Draw? then
      (match DrawFrom(m, ins.x, ins.y, ins.n, 0)
       case Undefined(t) => Undefined(t)
       case Ok(m') => Ok(m'.(displaySet := true)))
    else Ok(m)
  }

  /** 6XNN, 7XNN (wrapping, VF untouched), 8XY0 and CXNN. */
  function ExecAssign(m: Machine, ins: Instr, rnd: uint8): (r: Machine)
    requires Wf(m) && ins.IsAssign()
    ensures Wf(r)
  {
    match ins
    case LoadImm(x, nn) => SetV(m, x, nn)
    case AddImm(x, nn) => SetV(m, x, (nn as int + m.v[x]) % 0x100)
    case Move(x, y) => SetV(m, x, m.v[y])
    case Random(x, nn) => SetV(m, x, BitAnd(rnd, nn))
  }

  /** 8XY1, 8XY2 and 8XY3. */
  function ExecLogic(m: Machine, ins: Instr): (r: Machine)
    requires Wf(m) && ins.IsLogic()
    ensures Wf(r)
  {
    match ins
    case Or(x, y) => SetV(m, x, BitOr(m.v[x], m.v[y]))
    case And(x, y) => SetV(m, x, BitAnd(m.v[x], m.v[y]))
    case Xor(x, y) => SetV(m, x, BitXor(m.v[x], m.v[y]))
  }

  /** 8XY4, 8XY5 and 8XY7. VF is written before VX. */
  function ExecArithmetic(m: Machine, ins: Instr): (r: Machine)
    requires Wf(m) && ins.IsArithmetic()
    ensures Wf(r)
  {
    match ins
    case Add(x, y) =>
      // the sum is taken before VF is written; bit 8 of it is the carry
      var sum := m.v[y] as int + m.v[x];
      SetV(SetV(m, VF, sum / 0x100), x, sum % 0x100)
    case Sub(x, y) =>
      // VX - VY reads the new VF when X or Y is F
      var m1 := SetV(m, VF, if m.v[x] > m.v[y] then 1 else 0);
      SetV(m1, x, (m1.v[x] as int - m1.v[y]) % 0x100)
    case SubReverse(x, y) =>
      var m1 := SetV(m, VF, if m.v[y] > m.v[x] then 1 else 0);
      SetV(m1, x, (m1.v[y] as int - m1.v[x]) % 0x100)
  }

  /** 8XY6 and 8XYE: VF, then VY, then VX, each reading the registers as
      updated so far. */
  function ExecShift(m: Machine, ins: Instr): (r: Machine)
    requires Wf(m) && ins.IsShift()
    ensures Wf(r)
  {
    match ins
    case ShiftRight(x, y) =>
      var m1 := SetV(m, VF, m.v[y] % 2);
      var m2 := SetV(m1, y, m1.v[y] / 2);
      SetV(m2, x, m2.v[y])
    case ShiftLeft(x, y) =>
      var m1 := SetV(m, VF, m.v[y] / 0x80);
      var m2 := SetV(m1, y, (m1.v[y] as int * 2) % 0x100);
      SetV(m2, x, m2.v[y])
  }

  /** 3XNN, 4XNN, 5XY0 and 9XY0: a taken skip keeps PC to 12 bits. */
  function ExecSkip(m: Machine, ins: Instr): (r: Machine)
    requires Wf(m) && ins.IsSkip()
    ensures Wf(r)
  {
    var taken := match ins
      case SkipEqImm(x, nn) => m.v[x] == nn
      case SkipNeImm(x, nn) => m.v[x] != nn
      case SkipEqReg(x, y) => m.v[x] == m.v[y]
      case SkipNeReg(x, y) => m.v[x] != m.v[y];
    if taken then m.(pc := (m.pc + 2) % 0x1000) else m
  }

  /** 1NNN, 2NNN, 00EE and BNNN. */
  function ExecBranch(m: Machine, ins: Instr): (r: Outcome)
    requires Wf(m) && ins.IsBranch()
    ensures r.Ok? ==> Wf(r.state)
  {
    match ins
    case Jump(nnn) => Ok(m.(pc := nnn))
    case Call(nnn) => Ok(m.(stack := m.stack + [m.pc], pc := nnn % 0x1000))
    case Return =>
      if m.stack == [] then Undefined(StackUnderflow)
      else Ok(m.(pc := m.stack[|m.stack| - 1], stack := m.stack[..|m.stack| - 1]))
    case JumpOffset(nnn) => Ok(m.(pc := (nnn + m.v[0]) % 0x1000))
  }

  /** EX9E, EXA1 (no 12-bit mask on the skip) and FX0A. */
  function ExecKey(m: Machine, ins: Instr): (r: Outcome)
    requires Wf(m) && ins.IsKeyOp()
    ensures r.Ok? ==> Wf(r.state)
  {
    match ins
    case SkipKeyPressed(x) =>
      if m.v[x] >= KeyCount then Undefined(KeyOutOfRange)
      else Ok(if m.keys[m.v[x]] then m.(pc := (m.pc + 2) % 0x1_0000) else m)
    case SkipKeyNotPressed(x) =>
      if m.v[x] >= KeyCount then Undefined(KeyOutOfRange)
      else Ok(if !m.keys[m.v[x]] then m.(pc := (m.pc + 2) % 0x1_0000) else m)
    case WaitKey(x) =>
      // no key: PC is rewound so that the same instruction runs again
      var k := FirstPressed(m.keys);
      if k < KeyCount then Ok(SetV(m, x, k))
      else Ok(m.(pc := (m.pc - 2) % 0x1_0000))
  }

  /** FX07, FX15 and FX18. */
  function ExecTimer(m: Machine, ins: Instr): (r: Machine)
    requires Wf(m) && ins.IsTimer()
    ensures Wf(r)
  {
    match ins
    case LoadDelay(x) => SetV(m, x, m.delay)
    case SetDelay(x) => m.(delay := m.v[x])
    case SetSound(x) => m.(sound := m.v[x])
  }

  /** ANNN, FX1E (16-bit wrap, no 12-bit mask) and FX29. */
  function ExecIndex(m: Machine, ins: Instr): (r: Machine)
    requires Wf(m) && ins.IsIndex()
    ensures Wf(r)
  {
    match ins
    case SetIndex(nnn) => m.(i := nnn)
    case AddIndex(x) => m.(i := (m.i + m.v[x]) % 0x1_0000)
    case FontGlyph(x) => m.(i := 5 * m.v[x] as int)
  }

  /** FX33, FX55 and FX65. */
  function ExecMemory(m: Machine, ins: Instr): (r: Outcome)
    requires Wf(m) && ins.IsMemory()
    ensures r.Ok? ==> Wf(r.state)
  {
    match ins
    case StoreBcd(x) =>
      if m.i + 2 >= MemorySize then Undefined(MemoryOutOfRange)
      else
        var bcd := ParseBcd(m.v[x]);
        Ok(m.(mem := Overwrite(m.mem, m.i, [bcd.0, bcd.1, bcd.2])))
    case StoreRegs(x) =>
      if m.i + x + 1 > MemorySize then Undefined(MemoryOutOfRange)
      else Ok(m.(mem := Overwrite(m.mem, m.i, m.v[..x + 1]), i := (m.i + x + 1) % 0x1_0000))
    case LoadRegs(x) =>
      if m.i + x >= MemorySize then Undefined(MemoryOutOfRange)
      else Ok(m.(v := Overwrite(m.v, 0, m.mem[m.i..m.i + x + 1]), i := (m.i + x + 1) % 0x1_0000))
  }

  /** Start of sprite row `row` in the framebuffer: VX + 64 * (row + VY) as
      a uint16, clamped to 2048 (the clamp the source applies). */
  function RowStart(vx: uint8, vy: uint8, row: nat): nat
  {
    var pos := (vx + DisplayWidth * (row + vy)) % 0x1_0000;
    if pos > DisplaySize then DisplaySize else pos
  }

  /** DXYN from sprite row `row` to row n - 1. Each row's start is computed
      from the registers as they are when the row begins, since VF may be
      VX or VY and changes within a row. */
  function DrawFrom(m: Machine, x: Reg, y: Reg, n: nat, row: nat): (r: Outcome)
    requires Wf(m)
    ensures r.Ok? ==> Wf(r.state)
    decreases n - row
  {
    if row >= n then Ok(m)
    else
      match SpriteRow(m, x, y, row)
      case Undefined(t) => Undefined(t)
      case Ok(m') => DrawFrom(m', x, y, n, row + 1)
  }

  /** Sprite row `row`: read from memory at I + row (16-bit index) and
      XORed in at the row's start. */
  function SpriteRow(m: Machine, x: Reg, y: Reg, row: nat): (r: Outcome)
    requires Wf(m)
    ensures r.Ok? ==> Wf(r.state)
  {
    var addr := (m.i + row) % 0x1_0000;
    if addr >= MemorySize then Undefined(MemoryOutOfRange)
    else BlitFrom(m, RowStart(m.v[x], m.v[y], row), m.mem[addr], 0)
  }

  /** XOR the bits `bit`..7 of one sprite row into the framebuffer at `pos`.
      Every set bit first clears VF and then sets it when the pixel it hits
      was lit, so VF ends up describing the last set bit only. */
  function BlitFrom(m: Machine, pos: nat, sprite: uint8, bit: nat): (r: Outcome)
    requires Wf(m) && bit <= 8
    ensures r.Ok? ==> Wf(r.state)
    decreases 8 - bit
  {
    if bit == 8 then Ok(m)
    else if !MsbBit(sprite, bit) then BlitFrom(m, pos, sprite, bit + 1)
    else if pos + bit >= DisplaySize then Undefined(DisplayOutOfRange)
    else BlitFrom(Toggle(m, pos + bit), pos, sprite, bit + 1)
  }

  /** One set sprite bit landing on pixel c. */
  function Toggle(m: Machine, c: nat): Machine
    requires Wf(m) && c < DisplaySize
  {
    var collided: uint8 := if BitXor(m.display[c], 1) == 0 then 1 else 0;
    m.(v := m.v[VF := collided], display := m.display[c := BitXor(m.display[c], 1)])
  }
}
