/** Properties of single instructions, stated on the instruction-family
    functions of module Semantics. */
module InstructionProperties {
  import opened Bits
  import opened Semantics

  /** 8XY4 for X != F: VX receives the byte sum and VF the carry; no other
      register and nothing outside V changes. */
  lemma AddSetsCarry(m: Machine, x: Reg, y: Reg)
    requires Wf(m) && x != VF
    ensures var r := ExecArithmetic(m, Add(x, y));
      r.v[x] == (m.v[x] as int + m.v[y]) % 0x100 &&
      (r.v[VF] == 1 <==> m.v[x] as int + m.v[y] > 0xFF) && r.v[VF] <= 1 &&
      (forall j :: 0 <= j < RegisterCount && j != x && j != VF ==> r.v[j] == m.v[j]) &&
      r == m.(v := r.v)
  {
  }

  /** 8FY4: VF is written with the carry first and then overwritten by the
      sum, so the carry is lost. */
  lemma AddIntoFlagLosesCarry(m: Machine, y: Reg)
    requires Wf(m)
    ensures ExecArithmetic(m, Add(VF, y)).v[VF] == (m.v[VF] as int + m.v[y]) % 0x100
  {
  }

  /** 8XY5 for X, Y != F: VF = 1 exactly when VX > VY (strictly), and VX
      receives the difference modulo 256. */
  lemma SubSetsNoBorrow(m: Machine, x: Reg, y: Reg)
    requires Wf(m) && x != VF && y != VF
    ensures var r := ExecArithmetic(m, Sub(x, y));
      r.v[x] == (m.v[x] as int - m.v[y]) % 0x100 &&
      (r.v[VF] == 1 <==> m.v[x] > m.v[y]) && r.v[VF] <= 1 &&
      (forall j :: 0 <= j < RegisterCount && j != x && j != VF ==> r.v[j] == m.v[j]) &&
      r == m.(v := r.v)
  {
  }

  /** 8XY7 for X, Y != F: VF = 1 exactly when VY > VX, and VX receives
      VY - VX modulo 256. */
  lemma SubReverseSetsNoBorrow(m: Machine, x: Reg, y: Reg)
    requires Wf(m) && x != VF && y != VF
    ensures var r := ExecArithmetic(m, SubReverse(x, y));
      r.v[x] == (m.v[y] as int - m.v[x]) % 0x100 &&
      (r.v[VF] == 1 <==> m.v[y] > m.v[x]) && r.v[VF] <= 1 &&
      (forall j :: 0 <= j < RegisterCount && j != x && j != VF ==> r.v[j] == m.v[j]) &&
      r == m.(v := r.v)
  {
  }

  /** 7XNN wraps modulo 256 and sets no flag: every other register,
      VF included when X != F, keeps its value. */
  lemma AddImmWraps(m: Machine, x: Reg, nn: uint8, rnd: uint8)
    requires Wf(m)
    ensures var r := ExecAssign(m, AddImm(x, nn), rnd);
      r.v[x] == (m.v[x] as int + nn) % 0x100 &&
      (forall j :: 0 <= j < RegisterCount && j != x ==> r.v[j] == m.v[j]) &&
      r == m.(v := r.v)
  {
  }

  /** CXNN: whatever byte the generator yields, VX has no bit outside NN. */
  lemma RandomWithinMask(m: Machine, x: Reg, nn: uint8, rnd: uint8)
    requires Wf(m)
    ensures var r := ExecAssign(m, Random(x, nn), rnd);
      BitAnd(r.v[x], nn) == r.v[x] &&
      (forall j :: 0 <= j < RegisterCount && j != x ==> r.v[j] == m.v[j])
  {
    BitAndWithinMask(rnd, nn);
  }

  /** 8XY1, 8XY2 and 8XY3 write VX only; unlike some interpreters they
      leave VF alone (for X != F). */
  lemma LogicWritesOnlyVx(m: Machine, ins: Instr)
    requires Wf(m) && ins.IsLogic()
    ensures var r := ExecLogic(m, ins);
      (forall j :: 0 <= j < RegisterCount && j != ins.x ==> r.v[j] == m.v[j]) &&
      r == m.(v := r.v)
  {
  }

  /** 8XY6 for X, Y != F: VF gets the bit shifted out, and both VY and VX
      hold VY shifted right by one. */
  lemma ShiftRightMovesLowBit(m: Machine, x: Reg, y: Reg)
    requires Wf(m) && x != VF && y != VF
    ensures var r := ExecShift(m, ShiftRight(x, y));
      r.v[VF] == m.v[y] % 2 && r.v[y] == m.v[y] / 2 && r.v[x] == m.v[y] / 2 &&
      (forall j :: 0 <= j < RegisterCount && j != x && j != y && j != VF ==> r.v[j] == m.v[j]) &&
      r == m.(v := r.v)
  {
  }

  /** 8XYE for X, Y != F: VF gets the bit shifted out at the top, and both
      VY and VX hold VY shifted left by one, truncated to a byte. */
  lemma ShiftLeftMovesHighBit(m: Machine, x: Reg, y: Reg)
    requires Wf(m) && x != VF && y != VF
    ensures var r := ExecShift(m, ShiftLeft(x, y));
      r.v[VF] == (if m.v[y] >= 0x80 then 1 else 0) &&
      r.v[y] == (2 * m.v[y] as int) % 0x100 && r.v[x] == r.v[y] &&
      (forall j :: 0 <= j < RegisterCount && j != x && j != y && j != VF ==> r.v[j] == m.v[j]) &&
      r == m.(v := r.v)
  {
  }

  /** 2NNN pushes the current PC and jumps to NNN; a following 00EE gives
      back exactly the state before the call. */
  lemma CallThenReturn(m: Machine, nnn: uint16)
    requires Wf(m)
    ensures var c := ExecBranch(m, Call(nnn));
      c.Ok? && c.state.stack == m.stack + [m.pc] && c.state.pc == nnn % 0x1000 &&
      ExecBranch(c.state, Return) == Ok(m)
  {
  }

  /** 00EE fails exactly on an empty stack; otherwise it pops the top into PC. */
  lemma ReturnPops(m: Machine)
    requires Wf(m)
    ensures var r := ExecBranch(m, Return);
      (r.Undefined? <==> m.stack == []) &&
      (r.Undefined? ==> r.trap == StackUnderflow) &&
      (r.Ok? ==> r.state.stack + [r.state.pc] == m.stack && r.state == m.(stack := r.state.stack, pc := r.state.pc))
  {
  }

  /** BNNN is masked to 12 bits, so its target is always inside memory. */
  lemma JumpOffsetInMemory(m: Machine, nnn: uint16)
    requires Wf(m)
    ensures var r := ExecBranch(m, JumpOffset(nnn));
      r.Ok? && r.state.pc < MemorySize && r.state.pc == (nnn + m.v[0]) % 0x1000
  {
  }

  /** FX33 succeeds exactly when I + 2 is inside memory; it writes the three
      decimal digits of VX at I, I + 1, I + 2 and changes nothing else. */
  lemma StoreBcdWritesDigits(m: Machine, x: Reg)
    requires Wf(m)
    ensures var r := ExecMemory(m, StoreBcd(x));
      (r.Ok? <==> m.i + 2 < MemorySize) &&
      (r.Ok? ==>
        var s := r.state;
        s.mem[m.i] <= 9 && s.mem[m.i + 1] <= 9 && s.mem[m.i + 2] <= 9 &&
        100 * s.mem[m.i] + 10 * s.mem[m.i + 1] + s.mem[m.i + 2] == m.v[x] &&
        (forall j :: 0 <= j < MemorySize && !(m.i <= j <= m.i + 2) ==> s.mem[j] == m.mem[j]) &&
        s == m.(mem := s.mem))
  {
    if m.i + 2 < MemorySize {
      ParseBcdDigits(m.v[x]);
    }
  }

  /** FX55 succeeds exactly when I + X is inside memory; it copies V0..VX to
      memory[I..I+X], changes no other byte, and advances I by X + 1. */
  lemma StoreRegsCopies(m: Machine, x: Reg)
    requires Wf(m)
    ensures var r := ExecMemory(m, StoreRegs(x));
      (r.Ok? <==> m.i + x < MemorySize) &&
      (r.Ok? ==>
        var s := r.state;
        (forall k :: 0 <= k <= x ==> s.mem[m.i + k] == m.v[k]) &&
        (forall j :: 0 <= j < MemorySize && !(m.i <= j <= m.i + x) ==> s.mem[j] == m.mem[j]) &&
        s.i == (m.i + x + 1) % 0x1_0000 &&
        s == m.(mem := s.mem, i := s.i))
  {
  }

  /** FX65 succeeds exactly when I + X is inside memory; it loads V0..VX from
      memory[I..I+X], leaves the higher registers, and advances I by X + 1. */
  lemma LoadRegsCopies(m: Machine, x: Reg)
    requires Wf(m)
    ensures var r := ExecMemory(m, LoadRegs(x));
      (r.Ok? <==> m.i + x < MemorySize) &&
      (r.Ok? ==>
        var s := r.state;
        (forall k :: 0 <= k <= x ==> s.v[k] == m.mem[m.i + k]) &&
        (forall k :: x < k < RegisterCount ==> s.v[k] == m.v[k]) &&
        s.i == (m.i + x + 1) % 0x1_0000 &&
        s == m.(v := s.v, i := s.i))
  {
  }

  /** FX55 and then FX65 with the same X, from the same I and with the
      stored bytes still in place, gives V0..VX back. */
  lemma StoreThenLoadRestores(m: Machine, x: Reg, t: Machine)
    requires Wf(m) && Wf(t) && m.i + x < MemorySize
    requires t.mem == ExecMemory(m, StoreRegs(x)).state.mem && t.i == m.i
    ensures var r := ExecMemory(t, LoadRegs(x));
      r.Ok? && r.state.v[..x + 1] == m.v[..x + 1] &&
      r.state.i == ExecMemory(m, StoreRegs(x)).state.i
  {
    StoreRegsCopies(m, x);
    LoadRegsCopies(t, x);
    var r := ExecMemory(t, LoadRegs(x));
    forall k | 0 <= k <= x
      ensures r.state.v[k] == m.v[k]
    {
      assert r.state.v[k] == t.mem[t.i + k];
    }
  }

  /** FX29 points I at the glyph of the low digit in VX: with the font in
      place, the five bytes at I are that digit's glyph. */
  lemma FontGlyphAddressesGlyph(m: Machine, x: Reg)
    requires Wf(m) && m.mem[..|FontBytes|] == FontBytes && m.v[x] < 16
    ensures var s := ExecIndex(m, FontGlyph(x));
      s.i + 5 <= |FontBytes| && s.mem[s.i..s.i + 5] == FontBytes[5 * m.v[x]..5 * m.v[x] + 5]
  {
    var s := ExecIndex(m, FontGlyph(x));
    var base := 5 * m.v[x] as int;
    assert s.i == base && s.mem == m.mem;
    forall a | base <= a < base + 5
      ensures s.mem[a] == FontBytes[a]
    {
      assert m.mem[..|FontBytes|][a] == m.mem[a];
    }
  }

  /** FX15 and then FX07, with no countdown in between, read back the
      value that was written to the delay timer. Across two interpreter
      cycles the countdown intervenes; see
      CycleProperties.SetDelayThenLoadCycle. */
  lemma SetDelayThenLoad(m: Machine, x: Reg, y: Reg)
    requires Wf(m)
    ensures ExecTimer(ExecTimer(m, SetDelay(x)), LoadDelay(y)).v[y] == m.v[x]
  {
  }

  /** 00E0 darkens every cell of the framebuffer and raises the display
      flag; nothing else changes. */
  lemma ClearScreenDarkens(m: Machine, rnd: uint8)
    requires Wf(m)
    ensures var r := Execute(m, ClearScreen, rnd);
      r.Ok? && |r.state.display| == DisplaySize &&
      (forall c :: 0 <= c < DisplaySize ==> r.state.display[c] == 0) &&
      r.state.displaySet && r.state == m.(display := r.state.display, displaySet := true)
  {
  }
}
