/** The interpreter object (class `chip8`): its state lives in arrays and
    fields that each cycle updates in place. Every method is proved to
    follow the corresponding function of module Semantics. */
module Cpu {
  import opened Bits
  import opened KeyInput
  import opened Semantics

  /** std::copy_n of `src` into `dst` from index `at` on. */
  method CopyN(src: seq<uint8>, dst: array<uint8>, at: nat)
    requires at + |src| <= dst.Length
    modifies dst
    ensures dst[..] == Overwrite(old(dst[..]), at, src)
  {
    for k := 0 to |src|
      invariant forall j :: 0 <= j < dst.Length ==>
                  dst[j] == if at <= j < at + k then src[j - at] else old(dst[j])
    {
      dst[at + k] := src[k];
    }
  }

  class Chip8 {
    var memory: array<uint8>
    var V: array<uint8>
    var hwStack: seq<uint16>
    var display: array<uint8>
    var numpad: Keyboard
    var I: uint16
    var progCounter: uint16
    var delayTimer: uint8
    var soundTimer: uint8
    var isDisplaySet: bool

    ghost predicate Valid()
      reads this, numpad
    {
      memory.Length == MemorySize && V.Length == RegisterCount &&
      display.Length == DisplaySize && numpad.keys.Length == KeyCount &&
      memory != V && memory != display && V != display
    }

    // The getters of the source; State() is made of them.
    function GetMemoryDump(): seq<uint8> reads this, memory { memory[..] }
    function GetVRegisters(): seq<uint8> reads this, V { V[..] }
    function GetStack(): seq<uint16> reads this { hwStack }
    function GetDisplayPixels(): seq<uint8> reads this, display { display[..] }
    function GetProgCounter(): uint16 reads this { progCounter }
    function GetIRegister(): uint16 reads this { I }
    function GetDelayCounter(): uint8 reads this { delayTimer }
    function GetSoundCounter(): uint8 reads this { soundTimer }
    function GetDisplayFlag(): bool reads this { isDisplaySet }

    /** The abstract machine state this object represents. */
    ghost function State(): (m: Machine)
      reads this, memory, V, display, numpad, numpad.keys
      ensures Valid() ==> Wf(m)
    {
      Machine(GetMemoryDump(), GetVRegisters(), GetStack(), GetDisplayPixels(),
              GetProgCounter(), GetIRegister(), GetDelayCounter(), GetSoundCounter(),
              GetDisplayFlag(), numpad.keys[..])
    }

    /** chip8(keyPtr): a fresh interpreter reading keys from `keyPtr`. */
    constructor (keyPtr: Keyboard)
      requires keyPtr.Valid()
      ensures Valid() && numpad == keyPtr
      ensures fresh(memory) && fresh(V) && fresh(display)
      ensures State() == Initial(keyPtr.keys[..])
    {
      memory := new uint8[MemorySize](_ => 0);
      V := new uint8[RegisterCount](_ => 0);
      display := new uint8[DisplaySize](_ => 0);
      hwStack := [];
      numpad := keyPtr;
      I := 0;
      progCounter := ProgramStart;
      delayTimer, soundTimer := 0, 0;
      isDisplaySet := false;
      new;
      CopyN(FontBytes, memory, 0);
    }

    /** load_memory(rom_opcodes). */
    method LoadMemory(romOpcodes: seq<uint8>)
      requires Valid() && |romOpcodes| <= MemorySize - ProgramStart
      modifies memory
      ensures Valid() && State() == LoadRom(old(State()), romOpcodes)
    {
      CopyN(romOpcodes, memory, ProgramStart);
    }

    /** step_one_cycle; `rnd` is the byte CXNN would draw at random. */
    method StepOneCycle(rnd: uint8)
      requires Valid() && Cycle(State(), rnd).Ok?
      modifies this, memory, V, display, numpad.keys
      ensures Valid() && Cycle(old(State()), rnd) == Ok(State())
      ensures memory == old(memory) && V == old(V) && display == old(display)
      ensures numpad == old(numpad)
    {
      var opcode := memory[progCounter] as int * 0x100 + memory[progCounter + 1];
      ghost var m0 := State();
      assert opcode == Fetch(m0);
      progCounter := (progCounter + 2) % 0x1_0000;
      if delayTimer > 0 {
        delayTimer := delayTimer - 1;
      }
      if soundTimer > 0 {
        soundTimer := soundTimer - 1;
      }
      isDisplaySet := false;
      assert State() == BeginCycle(m0);
      Execute(Decode(opcode), rnd);
      ghost var m1 := State();
      numpad.ClearKeyInput();
      assert State() == m1.(keys := seq(KeyCount, _ => false));
    }

    /** The dispatch part of step_one_cycle, for a decoded opcode. */
    method Execute(ins: Instr, rnd: uint8)
      requires Valid() && Semantics.Execute(State(), ins, rnd).Ok?
      modifies this, memory, V, display
      ensures Valid() && Semantics.Execute(old(State()), ins, rnd) == Ok(State())
      ensures memory == old(memory) && V == old(V) && display == old(display)
      ensures numpad == old(numpad)
    {
      if ins.IsRegisterOp() {
        ExecuteRegisterOp(ins, rnd);
      } else {
        ExecuteOtherOp(ins);
      }
    }

    /** The opcodes that only read and write V and the timers. */
    method ExecuteRegisterOp(ins: Instr, rnd: uint8)
      requires Valid()
      requires ins.IsRegisterOp()
      modifies this, V
      ensures Valid() && Semantics.Execute(old(State()), ins, rnd) == Ok(State())
      ensures memory == old(memory) && V == old(V) && display == old(display)
      ensures numpad == old(numpad)
    {
      ghost var m0 := State();
      if ins.IsAssign() {
        assert Semantics.Execute(m0, ins, rnd) == Ok(ExecAssign(m0, ins, rnd));
        Assign(ins, rnd);
      } else if ins.IsLogic() {
        assert Semantics.Execute(m0, ins, rnd) == Ok(ExecLogic(m0, ins));
        Logic(ins);
      } else if ins.IsArithmetic() {
        assert Semantics.Execute(m0, ins, rnd) == Ok(ExecArithmetic(m0, ins));
        Arithmetic(ins);
      } else if ins.IsShift() {
        assert Semantics.Execute(m0, ins, rnd) == Ok(ExecShift(m0, ins));
        Shift(ins);
      } else {
        assert Semantics.Execute(m0, ins, rnd) == Ok(ExecTimer(m0, ins));
        TimerOp(ins);
      }
    }

    /** Control flow, keys, the index register, memory and the display. */
    method ExecuteOtherOp(ins: Instr)
      requires Valid() && Semantics.Execute(State(), ins, 0).Ok?
      requires !ins.IsRegisterOp()
      modifies this, memory, V, display
      ensures Valid() && forall rnd: uint8 :: Semantics.Execute(old(State()), ins, rnd) == Ok(State())
      ensures memory == old(memory) && V == old(V) && display == old(display)
      ensures numpad == old(numpad)
    {
      if ins.IsSkip() {
        Skip(ins);
      } else if ins.IsBranch() {
        Branch(ins);
      } else if ins.IsKeyOp() {
        KeyOp(ins);
      } else if ins.IsIndex() {
        IndexOp(ins);
      } else if ins.IsMemory() {
        MemoryOp(ins);
      } else if ins.ClearScreen? {
        forall k | 0 <= k < display.Length {
          display[k] := 0;
        }
        isDisplaySet := true;
      } else if ins.Draw? {
        DrawSprite(ins.x, ins.y, ins.n);
        isDisplaySet := true;
      }
    }

    /** 6XNN, 7XNN, 8XY0 and CXNN. */
    method Assign(ins: Instr, rnd: uint8)
      requires Valid() && ins.IsAssign()
      modifies V
      ensures Valid() && ExecAssign(old(State()), ins, rnd) == State()
    {
      match ins
      case LoadImm(x, nn) =>
        V[x] := nn;
      case AddImm(x, nn) =>
        V[x] := (nn as int + V[x]) % 0x100;
      case Move(x, y) =>
        V[x] := V[y];
      case Random(x, nn) =>
        V[x] := BitAnd(rnd, nn);
    }

    /** 8XY1, 8XY2 and 8XY3. */
    method Logic(ins: Instr)
      requires Valid() && ins.IsLogic()
      modifies V
      ensures Valid() && ExecLogic(old(State()), ins) == State()
    {
      match ins
      case Or(x, y) =>
        V[x] := BitOr(V[x], V[y]);
      case And(x, y) =>
        V[x] := BitAnd(V[x], V[y]);
      case Xor(x, y) =>
        V[x] := BitXor(V[x], V[y]);
    }

    /** 8XY4, 8XY5 and 8XY7: VF is written before VX. */
    method Arithmetic(ins: Instr)
      requires Valid() && ins.IsArithmetic()
      modifies V
      ensures Valid() && ExecArithmetic(old(State()), ins) == State()
    {
      match ins
      case Add(x, y) =>
        var sum := V[y] as int + V[x];
        V[VF] := sum / 0x100;
        V[x] := sum % 0x100;
      case Sub(x, y) =>
        V[VF] := if V[x] > V[y] then 1 else 0;
        V[x] := (V[x] as int - V[y]) % 0x100;
      case SubReverse(x, y) =>
        V[VF] := if V[y] > V[x] then 1 else 0;
        V[x] := (V[y] as int - V[x]) % 0x100;
    }

    /** 8XY6 and 8XYE: VF, then VY, then VX. */
    method Shift(ins: Instr)
      requires Valid() && ins.IsShift()
      modifies V
      ensures Valid() && ExecShift(old(State()), ins) == State()
    {
      match ins
      case ShiftRight(x, y) =>
        V[VF] := V[y] % 2;
        V[y] := V[y] / 2;
        V[x] := V[y];
      case ShiftLeft(x, y) =>
        V[VF] := V[y] / 0x80;
        V[y] := (V[y] as int * 2) % 0x100;
        V[x] := V[y];
    }

    /** 3XNN, 4XNN, 5XY0 and 9XY0. */
    method Skip(ins: Instr)
      requires Valid() && ins.IsSkip()
      modifies this
      ensures Valid() && ExecSkip(old(State()), ins) == State()
      ensures numpad == old(numpad)
      ensures memory == old(memory) && V == old(V) && display == old(display)
    {
      var taken := match ins
        case SkipEqImm(x, nn) => V[x] == nn
        case SkipNeImm(x, nn) => V[x] != nn
        case SkipEqReg(x, y) => V[x] == V[y]
        case SkipNeReg(x, y) => V[x] != V[y];
      if taken {
        progCounter := (progCounter + 2) % 0x1000;
      }
    }

    /** 1NNN, 2NNN, 00EE and BNNN. */
    method Branch(ins: Instr)
      requires Valid() && ins.IsBranch()
      requires ExecBranch(State(), ins).Ok?
      modifies this
      ensures Valid() && ExecBranch(old(State()), ins) == Ok(State())
      ensures numpad == old(numpad)
      ensures memory == old(memory) && V == old(V) && display == old(display)
    {
      match ins
      case Jump(nnn) =>
        progCounter := nnn;
      case Call(nnn) =>
        hwStack := hwStack + [progCounter];
        progCounter := nnn % 0x1000;
      case Return =>
        progCounter := hwStack[|hwStack| - 1];
        hwStack := hwStack[..|hwStack| - 1];
      case JumpOffset(nnn) =>
        progCounter := (nnn + V[0]) % 0x1000;
    }

    /** EX9E, EXA1 and FX0A: the instructions that consult the keyboard. */
    method KeyOp(ins: Instr)
      requires Valid() && ins.IsKeyOp()
      requires ExecKey(State(), ins).Ok?
      modifies this, V
      ensures Valid() && ExecKey(old(State()), ins) == Ok(State())
      ensures numpad == old(numpad)
      ensures memory == old(memory) && V == old(V) && display == old(display)
    {
      match ins
      case SkipKeyPressed(x) =>
        var pressed := numpad.IsKeyVxPressed(V[x]);
        if pressed { progCounter := (progCounter + 2) % 0x1_0000; }
      case SkipKeyNotPressed(x) =>
        var pressed := numpad.IsKeyVxPressed(V[x]);
        if !pressed { progCounter := (progCounter + 2) % 0x1_0000; }
      case WaitKey(x) =>
        var found, index := numpad.WhichKeyIndexIfPressed();
        if found {
          V[x] := index;
        } else {
          progCounter := (progCounter - 2) % 0x1_0000;
        }
    }

    /** FX07, FX15 and FX18. */
    method TimerOp(ins: Instr)
      requires Valid() && ins.IsTimer()
      modifies this, V
      ensures Valid() && ExecTimer(old(State()), ins) == State()
      ensures numpad == old(numpad)
      ensures memory == old(memory) && V == old(V) && display == old(display)
    {
      match ins
      case LoadDelay(x) =>
        V[x] := delayTimer;
      case SetDelay(x) =>
        delayTimer := V[x];
      case SetSound(x) =>
        soundTimer := V[x];
    }

    /** ANNN, FX1E and FX29. */
    method IndexOp(ins: Instr)
      requires Valid() && ins.IsIndex()
      modifies this
      ensures Valid() && ExecIndex(old(State()), ins) == State()
      ensures numpad == old(numpad)
      ensures memory == old(memory) && V == old(V) && display == old(display)
    {
      match ins
      case SetIndex(nnn) =>
        I := nnn;
      case AddIndex(x) =>
        I := (I + V[x]) % 0x1_0000;
      case FontGlyph(x) =>
        I := 5 * V[x] as int;
    }

    /** FX33, FX55 and FX65. */
    method MemoryOp(ins: Instr)
      requires Valid() && ins.IsMemory()
      requires ExecMemory(State(), ins).Ok?
      modifies this, memory, V
      ensures Valid() && ExecMemory(old(State()), ins) == Ok(State())
      ensures numpad == old(numpad)
      ensures memory == old(memory) && V == old(V) && display == old(display)
    {
      match ins
      case StoreBcd(x) =>
        var bcd := ParseBcd(V[x]);
        memory[I] := bcd.0;
        memory[I + 1] := bcd.1;
        memory[I + 2] := bcd.2;
      case StoreRegs(x) =>
        CopyN(V[..x + 1], memory, I);
        I := (I + x + 1) % 0x1_0000;
      case LoadRegs(x) =>
        LoadRegisters(x);
    }

    /** FX65: V0..VX from memory[I..I+X], then I advances by X + 1. */
    method LoadRegisters(x: Reg)
      requires Valid() && I + x < MemorySize
      modifies this`I, V
      ensures Valid() && State() == old(State()).(
                v := Overwrite(old(V[..]), 0, old(memory[I..I + x + 1])),
                i := (old(I) + x + 1) % 0x1_0000)
    {
      ghost var loaded := memory[I..I + x + 1];
      for k := 0 to x + 1
        modifies V
        invariant forall j :: 0 <= j < RegisterCount ==>
                    V[j] == if j < k then loaded[j] else old(V[j])
      {
        V[k] := memory[I + k];
      }
      assert V[..] == Overwrite(old(V[..]), 0, loaded);
      I := (I + x + 1) % 0x1_0000;
    }

    /** The DXYN loop over sprite rows 0..n-1. */
    method DrawSprite(x: Reg, y: Reg, n: Reg)
      requires Valid() && DrawFrom(State(), x, y, n, 0).Ok?
      modifies V, display
      ensures Valid() && DrawFrom(old(State()), x, y, n, 0) == Ok(State())
    {
      for row := 0 to n
        invariant DrawFrom(State(), x, y, n, row) == DrawFrom(old(State()), x, y, n, 0)
      {
        DrawSpriteRow(x, y, row);
      }
    }

    /** One row of DXYN: the row start from the current VX and VY, clamped
        to the end of the framebuffer, and the sprite byte at I + row. */
    method DrawSpriteRow(x: Reg, y: Reg, row: nat)
      requires Valid() && SpriteRow(State(), x, y, row).Ok?
      modifies V, display
      ensures Valid() && SpriteRow(old(State()), x, y, row) == Ok(State())
    {
      var pos := (V[x] as int + DisplayWidth * (row + V[y])) % 0x1_0000;
      pos := if pos > DisplaySize then DisplaySize else pos;
      var addr := (I + row) % 0x1_0000;
      assert pos == RowStart(V[x], V[y], row);
      assert addr < MemorySize;
      assert SpriteRow(State(), x, y, row) == BlitFrom(State(), pos, memory[addr], 0);
      BlitRow(pos, memory[addr]);
    }

    /** The DXYN loop over the eight bits of one sprite row. */
    method BlitRow(pos: nat, sprite: uint8)
      requires Valid() && BlitFrom(State(), pos, sprite, 0).Ok?
      modifies V, display
      ensures Valid() && BlitFrom(old(State()), pos, sprite, 0) == Ok(State())
    {
      for bit := 0 to 8
        invariant BlitFrom(State(), pos, sprite, bit) == BlitFrom(old(State()), pos, sprite, 0)
      {
        if MsbBit(sprite, bit) {
          ToggleCell(pos + bit);
        }
      }
    }

    /** One set sprite bit: VF is cleared, set on a collision, and the cell flipped. */
    method ToggleCell(c: nat)
      requires Valid() && c < DisplaySize
      modifies V, display
      ensures Valid() && State() == Toggle(old(State()), c)
    {
      V[VF] := 0;
      if BitXor(display[c], 1) == 0 {
        V[VF] := 1;
      }
      display[c] := BitXor(display[c], 1);
    }
  }
}
