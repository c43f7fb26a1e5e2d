/** Properties of whole interpreter cycles (step_one_cycle), of the state
    a new interpreter starts in, and of loading a ROM. */
module CycleProperties {
  import opened Bits
  import opened KeyInput
  import opened Semantics
  import opened DrawProperties

  /** Repeated cycles, one random byte per cycle; the first undefined
      cycle ends the run. */
  function Run(m: Machine, rnds: seq<uint8>): (r: Outcome)
    requires Wf(m)
    ensures r.Ok? ==> Wf(r.state)
    decreases |rnds|
  {
    if rnds == [] then Ok(m)
    else
      match Cycle(m, rnds[0])
      case Undefined(t) => Undefined(t)
      case Ok(m') => Run(m', rnds[1..])
  }

  /** The opcode is big-endian: its high byte is memory[PC] and its low
      byte memory[PC + 1]. */
  lemma FetchIsBigEndian(m: Machine)
    requires Wf(m) && m.pc + 1 < MemorySize
    ensures Fetch(m) / 0x100 == m.mem[m.pc] && Fetch(m) % 0x100 == m.mem[m.pc + 1]
  {
  }

  /** What an instruction may change: the skips, branches and key
      instructions move PC, FX15 sets the delay timer, FX18 the sound
      timer, 00E0 and DXYN change the framebuffer and raise the display
      flag, which nothing else alters; no instruction touches the key
      flags. */
  predicate FrameOk(m: Machine, ins: Instr, r: Machine)
  {
    (r.pc == m.pc || ins.IsSkip() || ins.IsBranch() || ins.IsKeyOp()) &&
    (r.delay == m.delay || ins.SetDelay?) &&
    (r.sound == m.sound || ins.SetSound?) &&
    (r.display == m.display || ins.ClearScreen? || ins.Draw?) &&
    (r.displaySet <==> m.displaySet || ins.ClearScreen? || ins.Draw?) &&
    r.keys == m.keys
  }

  /** The frame of 6XNN, 7XNN, 8XY0, CXNN and 8XY1..8XY3. */
  lemma AssignLogicFrame(m: Machine, ins: Instr, rnd: uint8)
    requires Wf(m) && (ins.IsAssign() || ins.IsLogic())
    ensures var r := Execute(m, ins, rnd);
      r.Ok? && FrameOk(m, ins, r.state)
  {
  }

  /** The frame of 8XY4..8XYE, FX07, FX15 and FX18. */
  lemma ArithmeticTimerFrame(m: Machine, ins: Instr, rnd: uint8)
    requires Wf(m) && (ins.IsArithmetic() || ins.IsShift() || ins.IsTimer())
    ensures var r := Execute(m, ins, rnd);
      r.Ok? && FrameOk(m, ins, r.state)
  {
  }

  /** The frame of the other instructions. */
  lemma OtherOpFrame(m: Machine, ins: Instr, rnd: uint8)
    requires Wf(m) && !ins.IsRegisterOp()
    ensures var r := Execute(m, ins, rnd);
      r.Ok? ==> FrameOk(m, ins, r.state)
  {
    if ins.Draw? {
      DrawFrame(m, ins.x, ins.y, ins.n, 0);
    }
  }

  /** Every instruction stays within its frame. */
  lemma ExecuteFrame(m: Machine, ins: Instr, rnd: uint8)
    requires Wf(m)
    ensures var r := Execute(m, ins, rnd);
      r.Ok? ==> FrameOk(m, ins, r.state)
  {
    if ins.IsAssign() || ins.IsLogic() {
      AssignLogicFrame(m, ins, rnd);
    } else if ins.IsRegisterOp() {
      ArithmeticTimerFrame(m, ins, rnd);
    } else {
      OtherOpFrame(m, ins, rnd);
    }
  }

  /** Every cycle fetches the opcode at PC and moves PC past it, and the
      timers count down by one towards zero. Only the skips, branches and
      key instructions then move PC again, and only FX15 and FX18 set a
      timer. The display flag is cleared at the start of every cycle, so
      after it the flag is up exactly when the cycle ran 00E0 or DXYN. */
  lemma CycleAdvances(m: Machine, rnd: uint8)
    requires Wf(m)
    ensures var r := Cycle(m, rnd);
      (m.pc + 1 >= MemorySize ==> r == Undefined(MemoryOutOfRange)) &&
      (r.Ok? ==>
        var ins := Decode(Fetch(m));
        (!(ins.IsSkip() || ins.IsBranch() || ins.IsKeyOp()) ==> r.state.pc == m.pc + 2) &&
        (!ins.SetDelay? ==> r.state.delay == if m.delay > 0 then m.delay - 1 else 0) &&
        (!ins.SetSound? ==> r.state.sound == if m.sound > 0 then m.sound - 1 else 0) &&
        (r.state.displaySet <==> ins.ClearScreen? || ins.Draw?))
  {
    if m.pc + 1 < MemorySize {
      ExecuteFrame(BeginCycle(m), Decode(Fetch(m)), rnd);
    }
  }

  /** A conditional skip (3XNN, 4XNN, 5XY0, 9XY0) moves PC four bytes on,
      kept to 12 bits, when its comparison holds, and two bytes otherwise;
      registers and memory stay as they were. */
  lemma SkipCycle(m: Machine, rnd: uint8)
    requires Wf(m) && m.pc + 1 < MemorySize && Decode(Fetch(m)).IsSkip()
    ensures var ins := Decode(Fetch(m));
      var taken := match ins
        case SkipEqImm(x, nn) => m.v[x] == nn
        case SkipNeImm(x, nn) => m.v[x] != nn
        case SkipEqReg(x, y) => m.v[x] == m.v[y]
        case SkipNeReg(x, y) => m.v[x] != m.v[y];
      var r := Cycle(m, rnd);
      r.Ok? && r.state.pc == (if taken then (m.pc + 4) % 0x1000 else m.pc + 2) &&
      r.state.v == m.v && r.state.mem == m.mem
  {
  }

  /** EX9E and EXA1 are defined exactly when VX names one of the 16 keys;
      then PC moves four bytes on when the key is down (EX9E) or up (EXA1)
      and two bytes otherwise, and registers and memory stay as they were. */
  lemma KeySkipCycle(m: Machine, rnd: uint8)
    requires Wf(m) && m.pc + 1 < MemorySize
    requires Decode(Fetch(m)).SkipKeyPressed? || Decode(Fetch(m)).SkipKeyNotPressed?
    ensures var ins := Decode(Fetch(m));
      var r := Cycle(m, rnd);
      (r.Ok? <==> m.v[ins.x] < KeyCount) &&
      (r.Ok? ==>
        r.state.pc == (if m.keys[m.v[ins.x]] == ins.SkipKeyPressed? then m.pc + 4 else m.pc + 2) &&
        r.state.v == m.v && r.state.mem == m.mem)
  {
  }

  /** 1NNN sets PC to NNN and leaves the stack and the registers alone. */
  lemma JumpCycle(m: Machine, rnd: uint8, nnn: uint16)
    requires Wf(m) && m.pc + 1 < MemorySize && Decode(Fetch(m)) == Jump(nnn)
    ensures var r := Cycle(m, rnd);
      r.Ok? && r.state.pc == nnn && r.state.stack == m.stack && r.state.v == m.v
  {
  }

  /** FX15 then FX07 in consecutive cycles: the second cycle's countdown
      has already taken one off, so VY reads VX - 1, or 0 when VX was 0. */
  lemma SetDelayThenLoadCycle(m: Machine, rnd: uint8, rnd': uint8, x: Reg, y: Reg)
    requires Wf(m) && m.pc + 1 < MemorySize && Decode(Fetch(m)) == SetDelay(x)
    requires Cycle(m, rnd).Ok?
    requires Cycle(m, rnd).state.pc + 1 < MemorySize && Decode(Fetch(Cycle(m, rnd).state)) == LoadDelay(y)
    ensures var r := Cycle(Cycle(m, rnd).state, rnd');
      r.Ok? && r.state.v[y] == if m.v[x] > 0 then m.v[x] - 1 else 0
  {
  }

  /** FX0A with no key down leaves PC where it was, so the instruction runs
      again, and VX unchanged; with a key down VX receives the lowest
      pressed key and execution moves on. */
  lemma WaitKeyCycle(m: Machine, rnd: uint8, x: Reg)
    requires Wf(m) && m.pc + 1 < MemorySize && Decode(Fetch(m)) == WaitKey(x)
    ensures var r := Cycle(m, rnd);
      r.Ok? &&
      (AllReleased(m.keys) ==> r.state.pc == m.pc && r.state.v == m.v) &&
      (!AllReleased(m.keys) ==>
        r.state.pc == m.pc + 2 && m.keys[r.state.v[x]] &&
        (forall k :: 0 <= k < r.state.v[x] ==> !m.keys[k]) &&
        (forall j :: 0 <= j < RegisterCount && j != x ==> r.state.v[j] == m.v[j]))
  {
    var k := FirstPressed(m.keys);
    if AllReleased(m.keys) {
      assert k == KeyCount;
    } else {
      assert k < KeyCount by {
        var j :| 0 <= j < KeyCount && m.keys[j];
        assert !(j < k);
      }
    }
  }

  /** 2NNN at PC pushes the address of the next instruction and jumps. */
  lemma CallCycle(m: Machine, rnd: uint8, nnn: uint16)
    requires Wf(m) && m.pc + 1 < MemorySize && Decode(Fetch(m)) == Call(nnn)
    ensures var r := Cycle(m, rnd);
      r.Ok? && r.state.stack == m.stack + [m.pc + 2] && r.state.pc == nnn % 0x1000
  {
  }

  /** 00EE at any PC pops that address again: after a 2NNN, whatever ran in
      between, as long as it left the stack as 2NNN did, 00EE resumes right
      after the call with the stack the call found. */
  lemma CallThenReturnCycle(m: Machine, t: Machine, rnd: uint8, rnd': uint8, nnn: uint16)
    requires Wf(m) && m.pc + 1 < MemorySize && Decode(Fetch(m)) == Call(nnn)
    requires Wf(t) && t.pc + 1 < MemorySize && Decode(Fetch(t)) == Return
    requires t.stack == Cycle(m, rnd).state.stack
    ensures var r := Cycle(t, rnd');
      r.Ok? && r.state.pc == m.pc + 2 && r.state.stack == m.stack
  {
    CallCycle(m, rnd, nnn);
  }

  /** A new interpreter: PC at 512, I, the timers and V all zero, an empty
      stack, a dark framebuffer without the update flag, the font at
      memory[0..80] and zeros above it. */
  lemma InitialState(keys: seq<bool>)
    requires |keys| == KeyCount
    ensures var m := Initial(keys);
      m.pc == ProgramStart && m.i == 0 && m.delay == 0 && m.sound == 0 &&
      (forall j :: 0 <= j < RegisterCount ==> m.v[j] == 0) && m.stack == [] &&
      (forall c :: 0 <= c < DisplaySize ==> m.display[c] == 0) && !m.displaySet &&
      m.mem[..|FontBytes|] == FontBytes &&
      (forall a :: |FontBytes| <= a < MemorySize ==> m.mem[a] == 0)
  {
  }

  /** load_memory puts the ROM at memory[512..512 + |rom|] and leaves every
      other byte, the font included, and the rest of the state as it was. */
  lemma LoadRomPlacement(m: Machine, rom: seq<uint8>)
    requires Wf(m) && |rom| <= MemorySize - ProgramStart
    ensures var r := LoadRom(m, rom);
      Wf(r) && r.mem[ProgramStart..ProgramStart + |rom|] == rom &&
      (forall a :: 0 <= a < MemorySize && !(ProgramStart <= a < ProgramStart + |rom|) ==> r.mem[a] == m.mem[a]) &&
      r.mem[..|FontBytes|] == m.mem[..|FontBytes|] &&
      r == m.(mem := r.mem)
  {
    var r := LoadRom(m, rom);
    assert forall k :: 0 <= k < |rom| ==> r.mem[ProgramStart + k] == rom[k];
  }

  /** Every instruction keeps a black-and-white framebuffer so: 00E0
      darkens it, DXYN flips cells, the rest leave it alone. */
  lemma ExecuteKeepsBinary(m: Machine, ins: Instr, rnd: uint8)
    requires Wf(m) && Binary(m.display)
    ensures var r := Execute(m, ins, rnd);
      r.Ok? ==> Binary(r.state.display)
  {
    ExecuteFrame(m, ins, rnd);
    if ins.Draw? {
      DrawBinary(m, ins.x, ins.y, ins.n, 0);
    }
  }

  /** Any run of cycles keeps a black-and-white framebuffer so, and leaves
      all key flags released after each cycle. */
  lemma {:induction false} RunKeepsInvariants(m: Machine, rnds: seq<uint8>)
    requires Wf(m) && Binary(m.display)
    ensures var r := Run(m, rnds);
      r.Ok? ==> Binary(r.state.display) && (rnds != [] ==> AllReleased(r.state.keys))
    decreases |rnds|
  {
    if rnds != [] && m.pc + 1 < MemorySize {
      ExecuteKeepsBinary(BeginCycle(m), Decode(Fetch(m)), rnds[0]);
      var c := Cycle(m, rnds[0]);
      if c.Ok? {
        RunKeepsInvariants(c.state, rnds[1..]);
        if rnds[1..] == [] {
          assert Run(m, rnds) == c;
        }
      }
    }
  }

  /** From a new interpreter with a ROM loaded, every reachable state has a
      black-and-white framebuffer. */
  lemma ReachableDisplayBinary(keys: seq<bool>, rom: seq<uint8>, rnds: seq<uint8>)
    requires |keys| == KeyCount && |rom| <= MemorySize - ProgramStart
    ensures var r := Run(LoadRom(Initial(keys), rom), rnds);
      r.Ok? ==> Binary(r.state.display)
  {
    var m := LoadRom(Initial(keys), rom);
    InitialState(keys);
    assert Binary(m.display);
    RunKeepsInvariants(m, rnds);
  }
}
