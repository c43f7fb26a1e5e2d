/** Canonical opcodes of the instructions: the opcode an assembler would
    emit for each one, with the bits the dispatch ignores set to zero. */
module Encoding {
  import opened Bits
  import opened Semantics

  /** Address operands fit the 12 bits an opcode has for them. */
  predicate Encodable(ins: Instr)
  {
    (ins.Jump? || ins.Call? || ins.SetIndex? || ins.JumpOffset?) ==> ins.nnn < 0x1000
  }

  /** Opcode shapes: 0xANNN, 0xAXNN and 0xAXYN. */
  function OpNNN(a: Reg, nnn: uint16): uint16
    requires nnn < 0x1000
  {
    a * 0x1000 + nnn
  }

  function OpXNN(a: Reg, x: Reg, nn: uint8): uint16
  {
    a * 0x1000 + x * 0x100 + nn
  }

  function OpXYN(a: Reg, x: Reg, y: Reg, n: Reg): uint16
  {
    a * 0x1000 + x * 0x100 + y * 0x10 + n
  }

  /** The canonical opcode of an instruction; Unrecognized stands for any
      opcode the dispatch ignores, of which 0x0000 is one. */
  function Encode(ins: Instr): uint16
    requires Encodable(ins)
  {
    match ins
    case ClearScreen => 0x00E0
    case Return => 0x00EE
    case Jump(nnn) => OpNNN(0x1, nnn)
    case Call(nnn) => OpNNN(0x2, nnn)
    case SkipEqImm(x, nn) => OpXNN(0x3, x, nn)
    case SkipNeImm(x, nn) => OpXNN(0x4, x, nn)
    case SkipEqReg(x, y) => OpXYN(0x5, x, y, 0)
    case LoadImm(x, nn) => OpXNN(0x6, x, nn)
    case AddImm(x, nn) => OpXNN(0x7, x, nn)
    case Move(x, y) => OpXYN(0x8, x, y, 0x0)
    case Or(x, y) => OpXYN(0x8, x, y, 0x1)
    case And(x, y) => OpXYN(0x8, x, y, 0x2)
    case Xor(x, y) => OpXYN(0x8, x, y, 0x3)
    case Add(x, y) => OpXYN(0x8, x, y, 0x4)
    case Sub(x, y) => OpXYN(0x8, x, y, 0x5)
    case ShiftRight(x, y) => OpXYN(0x8, x, y, 0x6)
    case SubReverse(x, y) => OpXYN(0x8, x, y, 0x7)
    case ShiftLeft(x, y) => OpXYN(0x8, x, y, 0xE)
    case SkipNeReg(x, y) => OpXYN(0x9, x, y, 0)
    case SetIndex(nnn) => OpNNN(0xA, nnn)
    case JumpOffset(nnn) => OpNNN(0xB, nnn)
    case Random(x, nn) => OpXNN(0xC, x, nn)
    case Draw(x, y, n) => OpXYN(0xD, x, y, n)
    case SkipKeyPressed(x) => OpXNN(0xE, x, 0x9E)
    case SkipKeyNotPressed(x) => OpXNN(0xE, x, 0xA1)
    case LoadDelay(x) => OpXNN(0xF, x, 0x07)
    case WaitKey(x) => OpXNN(0xF, x, 0x0A)
    case SetDelay(x) => OpXNN(0xF, x, 0x15)
    case SetSound(x) => OpXNN(0xF, x, 0x18)
    case AddIndex(x) => OpXNN(0xF, x, 0x1E)
    case FontGlyph(x) => OpXNN(0xF, x, 0x29)
    case StoreBcd(x) => OpXNN(0xF, x, 0x33)
    case StoreRegs(x) => OpXNN(0xF, x, 0x55)
    case LoadRegs(x) => OpXNN(0xF, x, 0x65)
    case Unrecognized => 0x0000
  }

  /** The mask helpers recover the fields of a 0xANNN opcode. */
  lemma NNNFields(a: Reg, nnn: uint16)
    requires nnn < 0x1000
    ensures FirstNibble(OpNNN(a, nnn)) == a && LastThreeNibbles(OpNNN(a, nnn)) == nnn
  {
  }

  /** The mask helpers recover the fields of a 0xAXNN opcode. */
  lemma XNNFields(a: Reg, x: Reg, nn: uint8)
    ensures var op := OpXNN(a, x, nn);
      FirstNibble(op) == a && SecondNibble(op) == x && LastTwoNibbles(op) == nn
  {
    var op := OpXNN(a, x, nn);
    assert op / 0x100 == a * 0x10 + x;
  }

  /** The mask helpers recover the fields of a 0xAXYN opcode. */
  lemma XYNFields(a: Reg, x: Reg, y: Reg, n: Reg)
    ensures var op := OpXYN(a, x, y, n);
      FirstNibble(op) == a && SecondNibble(op) == x && ThirdNibble(op) == y &&
      LastNibble(op) == n && LastTwoNibbles(op) == y * 0x10 + n
  {
    var op := OpXYN(a, x, y, n);
    assert op / 0x100 == a * 0x10 + x;
    assert op / 0x10 == a * 0x100 + x * 0x10 + y;
  }

  /** The round trip for the control-flow instructions and Unrecognized. */
  lemma DecodeEncodeControl(ins: Instr)
    requires Encodable(ins)
    requires ins.ClearScreen? || ins.Return? || ins.Unrecognized? || ins.IsBranch() || ins.IsSkip()
    ensures Decode(Encode(ins)) == ins
  {
    match ins
    case ClearScreen =>
    case Return =>
    case Unrecognized =>
    case Jump(nnn) => NNNFields(0x1, nnn);
    case Call(nnn) => NNNFields(0x2, nnn);
    case JumpOffset(nnn) => NNNFields(0xB, nnn);
    case SkipEqImm(x, nn) => XNNFields(0x3, x, nn);
    case SkipNeImm(x, nn) => XNNFields(0x4, x, nn);
    case SkipEqReg(x, y) => XYNFields(0x5, x, y, 0);
    case SkipNeReg(x, y) => XYNFields(0x9, x, y, 0);
  }

  /** The round trip for 6XNN, 7XNN, CXNN and 8XY0..8XY3. */
  lemma DecodeEncodeAssign(ins: Instr)
    requires ins.IsAssign() || ins.IsLogic()
    ensures Decode(Encode(ins)) == ins
  {
    match ins
    case LoadImm(x, nn) => XNNFields(0x6, x, nn);
    case AddImm(x, nn) => XNNFields(0x7, x, nn);
    case Random(x, nn) => XNNFields(0xC, x, nn);
    case Move(x, y) => XYNFields(0x8, x, y, 0x0);
    case Or(x, y) => XYNFields(0x8, x, y, 0x1);
    case And(x, y) => XYNFields(0x8, x, y, 0x2);
    case Xor(x, y) => XYNFields(0x8, x, y, 0x3);
  }

  /** The round trip for 8XY4..8XYE. */
  lemma DecodeEncodeArithmetic(ins: Instr)
    requires ins.IsArithmetic() || ins.IsShift()
    ensures Decode(Encode(ins)) == ins
  {
    match ins
    case Add(x, y) => XYNFields(0x8, x, y, 0x4);
    case Sub(x, y) => XYNFields(0x8, x, y, 0x5);
    case ShiftRight(x, y) => XYNFields(0x8, x, y, 0x6);
    case SubReverse(x, y) => XYNFields(0x8, x, y, 0x7);
    case ShiftLeft(x, y) => XYNFields(0x8, x, y, 0xE);
  }

  /** The round trip for DXYN, the E family and ANNN, FX1E, FX29. */
  lemma DecodeEncodeKeyIndex(ins: Instr)
    requires Encodable(ins)
    requires ins.Draw? || ins.IsKeyOp() || ins.IsIndex()
    ensures Decode(Encode(ins)) == ins
  {
    match ins
    case Draw(x, y, n) => XYNFields(0xD, x, y, n);
    case SkipKeyPressed(x) => XNNFields(0xE, x, 0x9E);
    case SkipKeyNotPressed(x) => XNNFields(0xE, x, 0xA1);
    case WaitKey(x) => XNNFields(0xF, x, 0x0A);
    case SetIndex(nnn) => NNNFields(0xA, nnn);
    case AddIndex(x) => XNNFields(0xF, x, 0x1E);
    case FontGlyph(x) => XNNFields(0xF, x, 0x29);
  }

  /** The round trip for the timer and memory instructions of the F family. */
  lemma DecodeEncodeTimerMemory(ins: Instr)
    requires ins.IsTimer() || ins.IsMemory()
    ensures Decode(Encode(ins)) == ins
  {
    match ins
    case LoadDelay(x) => XNNFields(0xF, x, 0x07);
    case SetDelay(x) => XNNFields(0xF, x, 0x15);
    case SetSound(x) => XNNFields(0xF, x, 0x18);
    case StoreBcd(x) => XNNFields(0xF, x, 0x33);
    case StoreRegs(x) => XNNFields(0xF, x, 0x55);
    case LoadRegs(x) => XNNFields(0xF, x, 0x65);
  }

  /** Decoding the canonical opcode of an instruction gives the instruction
      back, so every instruction the model knows is reachable through the
      dispatch. */
  lemma DecodeEncode(ins: Instr)
    requires Encodable(ins)
    ensures Decode(Encode(ins)) == ins
  {
    if ins.IsAssign() || ins.IsLogic() {
      DecodeEncodeAssign(ins);
    } else if ins.IsArithmetic() || ins.IsShift() {
      DecodeEncodeArithmetic(ins);
    } else if ins.Draw? || ins.IsKeyOp() || ins.IsIndex() {
      DecodeEncodeKeyIndex(ins);
    } else if ins.IsTimer() || ins.IsMemory() {
      DecodeEncodeTimerMemory(ins);
    } else {
      DecodeEncodeControl(ins);
    }
  }
}
