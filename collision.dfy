/** The collision flag of DXYN in general: what VF holds after a sprite
    is drawn, stated over the ordered list of cells the drawing flips. */
module Collision {
  import opened Bits
  import opened Semantics
  import opened DrawProperties

  /** VF after the cells `cs` are flipped in order, starting from
      framebuffer `d` and flag `vf`: each flip sets VF to 1 when the cell
      was lit before it and to 0 otherwise (a cell off the framebuffer is
      never lit; a draw that completes never flips one). */
  function FlagAfter(d: seq<uint8>, vf: uint8, cs: seq<nat>): uint8
    decreases |cs|
  {
    if cs == [] then vf
    else FlagAfter(Flip(d, cs[0]), if cs[0] < |d| then d[cs[0]] else 0, cs[1..])
  }

  /** The flag after `a + b` is the flag after `b`, started from the
      framebuffer and the flag that `a` leaves. */
  lemma {:induction false} FlagAfterAppend(d: seq<uint8>, vf: uint8, a: seq<nat>, b: seq<nat>)
    ensures FlagAfter(d, vf, a + b) == FlagAfter(Flips(d, a), FlagAfter(d, vf, a), b)
    decreases |a|
  {
    if a == [] {
      assert a + b == b;
    } else {
      var ab := a + b;
      assert ab != [] && ab[0] == a[0] && ab[1..] == a[1..] + b;
      FlagAfterAppend(Flip(d, a[0]), if a[0] < |d| then d[a[0]] else 0, a[1..], b);
    }
  }

  /** Only the last flip decides: with no flip VF is unchanged, otherwise
      it is the value the last flipped cell held just before its own flip,
      so earlier collisions of the same sprite are forgotten. */
  lemma FlagAfterIsLastCell(d: seq<uint8>, vf: uint8, cs: seq<nat>)
    ensures cs == [] ==> FlagAfter(d, vf, cs) == vf
    ensures cs != [] ==>
      var c := cs[|cs| - 1];
      FlagAfter(d, vf, cs) == if c < |d| then Flips(d, cs[..|cs| - 1])[c] else 0
  {
    if cs != [] {
      var init := cs[..|cs| - 1];
      var c := cs[|cs| - 1];
      assert cs == init + [c];
      FlagAfterAppend(d, vf, init, [c]);
    }
  }

  /** FlagAfterAppend read as a chain: the flag two consecutive runs of
      flips leave is the flag of their concatenation. */
  lemma FlagChain(d: seq<uint8>, vf: uint8, a: seq<nat>, b: seq<nat>, d1: seq<uint8>, vf1: uint8, vf2: uint8)
    requires d1 == Flips(d, a) && vf1 == FlagAfter(d, vf, a) && vf2 == FlagAfter(d1, vf1, b)
    ensures vf2 == FlagAfter(d, vf, a + b)
  {
    FlagAfterAppend(d, vf, a, b);
  }

  /** One set sprite bit on a black-and-white framebuffer: VF becomes the
      old value of the pixel, and the pixel is flipped. */
  lemma ToggleFlag(m: Machine, c: nat)
    requires Wf(m) && c < DisplaySize && Binary(m.display)
    ensures var t := Toggle(m, c);
      t.v[VF] == m.display[c] && t.v[VF] == FlagAfter(m.display, m.v[VF], [c]) &&
      t.display == Flips(m.display, [c]) && Binary(t.display)
  {
    FlipBinary(m.display[c]);
    FlipOne(m.display, c);
    assert [c][1..] == [];
  }

  /** On a black-and-white framebuffer, a sprite row drawn without fault
      leaves in VF the old value of the pixel its last set bit hit, and
      leaves VF alone when it has no set bit. */
  lemma {:induction false} BlitCollision(m: Machine, pos: nat, sprite: uint8, bit: nat)
    requires Wf(m) && bit <= 8 && Binary(m.display)
    ensures var r := BlitFrom(m, pos, sprite, bit);
      r.Ok? ==> r.state.v[VF] == FlagAfter(m.display, m.v[VF], RowCells(pos, sprite, bit))
    decreases 8 - bit
  {
    if bit < 8 {
      var rest := RowCells(pos, sprite, bit + 1);
      if !MsbBit(sprite, bit) {
        BlitCollision(m, pos, sprite, bit + 1);
        assert RowCells(pos, sprite, bit) == rest;
      } else if pos + bit < DisplaySize {
        var c := pos + bit;
        ToggleFlag(m, c);
        BlitCollision(Toggle(m, c), pos, sprite, bit + 1);
        assert RowCells(pos, sprite, bit) == [c] + rest;
        FlagAfterAppend(m.display, m.v[VF], [c], rest);
      }
    }
  }

  /** One sprite row (X, Y != F) drawn without fault on a black-and-white
      framebuffer: the row's cells flipped, VF as FlagAfter says for them,
      and the framebuffer still black-and-white. */
  lemma SpriteRowCollision(m: Machine, x: Reg, y: Reg, row: nat)
    requires Wf(m) && x != VF && y != VF && Binary(m.display) && SpriteRow(m, x, y, row).Ok?
    ensures var s := SpriteRow(m, x, y, row).state;
      var addr := (m.i + row) % 0x1_0000;
      var cells := RowCells(RowStart(m.v[x], m.v[y], row), m.mem[addr], 0);
      addr < MemorySize && Binary(s.display) &&
      s.display == Flips(m.display, cells) && s.v[VF] == FlagAfter(m.display, m.v[VF], cells)
  {
    var addr := (m.i + row) % 0x1_0000;
    var pos := RowStart(m.v[x], m.v[y], row);
    BlitCollision(m, pos, m.mem[addr], 0);
    BlitBinary(m, pos, m.mem[addr], 0);
    BlitIsFlips(m, pos, m.mem[addr], 0);
  }

  /** One sprite row (X, Y != F) of a draw: the rest of the draw
      continues from the row's result, over the remaining cells. */
  lemma DrawStep(m: Machine, x: Reg, y: Reg, n: nat, row: nat)
    requires Wf(m) && x != VF && y != VF && row < n && SpriteRow(m, x, y, row).Ok?
    ensures var t := SpriteRow(m, x, y, row).state;
      var addr := (m.i + row) % 0x1_0000;
      addr < MemorySize &&
      DrawFrom(m, x, y, n, row) == DrawFrom(t, x, y, n, row + 1) &&
      DrawCells(m.v[x], m.v[y], m.i, m.mem, n, row) ==
        RowCells(RowStart(m.v[x], m.v[y], row), m.mem[addr], 0) + DrawCells(t.v[x], t.v[y], t.i, t.mem, n, row + 1)
  {
    SpriteRowIsFlips(m, x, y, row);
    DrawCellsStep(m.v[x], m.v[y], m.i, m.mem, n, row);
  }

  /** DXYN's collision flag (X, Y != F) on a black-and-white framebuffer:
      after rows `row`..n-1 drawn without fault, VF is FlagAfter of the
      cells the draw flips. */
  lemma {:induction false} DrawCollision(m: Machine, x: Reg, y: Reg, n: nat, row: nat)
    requires Wf(m) && x != VF && y != VF && Binary(m.display)
    ensures var r := DrawFrom(m, x, y, n, row);
      r.Ok? ==> r.state.v[VF] == FlagAfter(m.display, m.v[VF], DrawCells(m.v[x], m.v[y], m.i, m.mem, n, row))
    decreases n - row
  {
    if row < n && SpriteRow(m, x, y, row).Ok? {
      var t := SpriteRow(m, x, y, row).state;
      DrawStep(m, x, y, n, row);
      SpriteRowCollision(m, x, y, row);
      var addr := (m.i + row) % 0x1_0000;
      var cells := RowCells(RowStart(m.v[x], m.v[y], row), m.mem[addr], 0);
      DrawCollision(t, x, y, n, row + 1);
      var r := DrawFrom(t, x, y, n, row + 1);
      if r.Ok? {
        FlagChain(m.display, m.v[VF], cells, DrawCells(t.v[x], t.v[y], t.i, t.mem, n, row + 1), t.display, t.v[VF], r.state.v[VF]);
      }
    }
  }

  /** DXYN (X, Y != F) on a black-and-white framebuffer, when it completes:
      VF is left unchanged if the sprite flips no pixel, and is otherwise
      1 exactly when the last pixel flipped was lit before its flip. */
  lemma DrawInstructionCollision(m: Machine, x: Reg, y: Reg, n: Reg, rnd: uint8)
    requires Wf(m) && Binary(m.display) && x != VF && y != VF
    ensures var r := Execute(m, Draw(x, y, n), rnd);
      r.Ok? ==> r.state.v[VF] == FlagAfter(m.display, m.v[VF], DrawCells(m.v[x], m.v[y], m.i, m.mem, n, 0))
  {
    DrawCollision(m, x, y, n, 0);
    var d := DrawFrom(m, x, y, n, 0);
    if d.Ok? {
      assert Execute(m, Draw(x, y, n), rnd) == Ok(d.state.(displaySet := true));
    } else {
      assert !Execute(m, Draw(x, y, n), rnd).Ok?;
    }
  }
}
