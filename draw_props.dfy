/** Properties of DXYN: what it changes, that the framebuffer stays
    black-and-white, that drawing a sprite twice erases it, and how VF
    reports collisions. */
module DrawProperties {
  import opened Bits
  import opened Semantics

  /** Every framebuffer cell is 0 or 1. */
  predicate Binary(d: seq<uint8>)
  {
    forall c :: 0 <= c < |d| ==> d[c] <= 1
  }

  /** `m'` differs from `m` at most in the framebuffer and in VF. */
  predicate ScreenAndFlagOnly(m: Machine, m': Machine)
    requires Wf(m) && Wf(m')
  {
    m' == m.(v := m'.v, display := m'.display) &&
    forall j :: 0 <= j < VF ==> m'.v[j] == m.v[j]
  }

  /** Bits `bit`..7 of one sprite row change the framebuffer and VF only. */
  lemma {:induction false} BlitFrame(m: Machine, pos: nat, sprite: uint8, bit: nat)
    requires Wf(m) && bit <= 8
    ensures var r := BlitFrom(m, pos, sprite, bit);
      r.Ok? ==> ScreenAndFlagOnly(m, r.state) && (r.state.v[VF] == m.v[VF] || r.state.v[VF] <= 1)
    decreases 8 - bit
  {
    if bit < 8 {
      if !MsbBit(sprite, bit) {
        BlitFrame(m, pos, sprite, bit + 1);
      } else if pos + bit < DisplaySize {
        BlitFrame(Toggle(m, pos + bit), pos, sprite, bit + 1);
      }
    }
  }

  /** Bits `bit`..7 of one sprite row keep a black-and-white framebuffer so. */
  lemma {:induction false} BlitBinary(m: Machine, pos: nat, sprite: uint8, bit: nat)
    requires Wf(m) && bit <= 8 && Binary(m.display)
    ensures var r := BlitFrom(m, pos, sprite, bit);
      r.Ok? ==> Binary(r.state.display)
    decreases 8 - bit
  {
    if bit < 8 {
      if !MsbBit(sprite, bit) {
        BlitBinary(m, pos, sprite, bit + 1);
      } else if pos + bit < DisplaySize {
        var t := Toggle(m, pos + bit);
        FlipBinary(m.display[pos + bit]);
        assert Binary(t.display);
        BlitBinary(t, pos, sprite, bit + 1);
      }
    }
  }

  /** DXYN's rows `row`..n-1 change the framebuffer and VF only; VF is left
      alone or set to 0 or 1. */
  lemma {:induction false} DrawFrame(m: Machine, x: Reg, y: Reg, n: nat, row: nat)
    requires Wf(m)
    ensures var r := DrawFrom(m, x, y, n, row);
      r.Ok? ==> ScreenAndFlagOnly(m, r.state) && (r.state.v[VF] == m.v[VF] || r.state.v[VF] <= 1)
    decreases n - row
  {
    if row < n {
      var s := SpriteRow(m, x, y, row);
      if s.Ok? {
        var addr := (m.i + row) % 0x1_0000;
        BlitFrame(m, RowStart(m.v[x], m.v[y], row), m.mem[addr], 0);
        DrawFrame(s.state, x, y, n, row + 1);
      }
    }
  }

  /** DXYN's rows `row`..n-1 keep a black-and-white framebuffer so. */
  lemma {:induction false} DrawBinary(m: Machine, x: Reg, y: Reg, n: nat, row: nat)
    requires Wf(m) && Binary(m.display)
    ensures var r := DrawFrom(m, x, y, n, row);
      r.Ok? ==> Binary(r.state.display)
    decreases n - row
  {
    if row < n {
      var s := SpriteRow(m, x, y, row);
      if s.Ok? {
        var addr := (m.i + row) % 0x1_0000;
        BlitBinary(m, RowStart(m.v[x], m.v[y], row), m.mem[addr], 0);
        DrawBinary(s.state, x, y, n, row + 1);
      }
    }
  }

  /** DXYN changes only V and the framebuffer, raises the display flag and
      keeps a black-and-white framebuffer black-and-white. */
  lemma DrawKeepsBinary(m: Machine, x: Reg, y: Reg, n: Reg, rnd: uint8)
    requires Wf(m) && Binary(m.display)
    ensures var r := Execute(m, Draw(x, y, n), rnd);
      r.Ok? ==>
        r.state.displaySet && Binary(r.state.display) &&
        r.state == m.(v := r.state.v, display := r.state.display, displaySet := true)
  {
    DrawFrame(m, x, y, n, 0);
    DrawBinary(m, x, y, n, 0);
  }

  /** A sprite row without set bits changes nothing, VF included. */
  lemma {:induction false} BlankRowChangesNothing(m: Machine, pos: nat, bit: nat)
    requires Wf(m) && bit <= 8
    ensures BlitFrom(m, pos, 0, bit) == Ok(m)
    decreases 8 - bit
  {
    if bit < 8 {
      assert !MsbBit(0, bit);
      BlankRowChangesNothing(m, pos, bit + 1);
    }
  }

  /** VF after DXYN describes the last set sprite bit only: here the first
      bit erases a lit pixel (a collision) and the second lands on a dark
      one, and VF ends up 0. */
  lemma CollisionFlagFollowsLastBit(m: Machine)
    requires Wf(m) && m.display[0] == 1 && m.display[1] == 0
    ensures var r := BlitFrom(m, 0, 0xC0, 0);
      r.Ok? && r.state.display[0] == 0 && r.state.display[1] == 1 && r.state.v[VF] == 0
  {
    FlipBinary(1);
    FlipBinary(0);
    var t0 := Toggle(m, 0);
    assert t0.display[0] == 0 && t0.display[1] == 0 && t0.v[VF] == 1;
    var t1 := Toggle(t0, 1);
    assert t1.display[0] == 0 && t1.display[1] == 1 && t1.v[VF] == 0;
    assert MsbBit(0xC0, 0) && MsbBit(0xC0, 1);
    assert !MsbBit(0xC0, 2) && !MsbBit(0xC0, 3) && !MsbBit(0xC0, 4);
    assert !MsbBit(0xC0, 5) && !MsbBit(0xC0, 6) && !MsbBit(0xC0, 7);
    assert BlitFrom(t1, 0, 0xC0, 2) == Ok(t1);
  }

  /** Flip one cell of the framebuffer; out-of-range cells are ignored. */
  function Flip(d: seq<uint8>, c: nat): (r: seq<uint8>)
    ensures |r| == |d|
  {
    if c < |d| then d[c := BitXor(d[c], 1)] else d
  }

  /** Flip the cells `cs` one after the other. */
  function Flips(d: seq<uint8>, cs: seq<nat>): (r: seq<uint8>)
    ensures |r| == |d|
    decreases |cs|
  {
    if cs == [] then d else Flips(Flip(d, cs[0]), cs[1..])
  }

  /** The cells that bits `bit`..7 of a sprite row toggle. */
  function RowCells(pos: nat, sprite: uint8, bit: nat): seq<nat>
    requires bit <= 8
    decreases 8 - bit
  {
    if bit == 8 then []
    else (if MsbBit(sprite, bit) then [pos + bit] else []) + RowCells(pos, sprite, bit + 1)
  }

  /** Whether every set bit among bits `bit`..7 of a sprite row lands
      inside the framebuffer. */
  predicate RowOnScreen(pos: nat, sprite: uint8, bit: nat)
    requires bit <= 8
    decreases 8 - bit
  {
    bit == 8 ||
    ((!MsbBit(sprite, bit) || pos + bit < DisplaySize) && RowOnScreen(pos, sprite, bit + 1))
  }

  /** Whether sprite rows `row`..n-1, drawn with the given VX, VY, I and
      memory, can be read and land inside the framebuffer. */
  predicate DrawDefined(vx: uint8, vy: uint8, i: uint16, mem: seq<uint8>, n: nat, row: nat)
    requires |mem| == MemorySize
    decreases n - row
  {
    row >= n ||
    var addr := (i + row) % 0x1_0000;
    addr < MemorySize && RowOnScreen(RowStart(vx, vy, row), mem[addr], 0) &&
    DrawDefined(vx, vy, i, mem, n, row + 1)
  }

  /** The cells that sprite rows `row`..n-1 toggle, in drawing order. */
  function DrawCells(vx: uint8, vy: uint8, i: uint16, mem: seq<uint8>, n: nat, row: nat): seq<nat>
    requires |mem| == MemorySize
    decreases n - row
  {
    if row >= n then []
    else
      var addr := (i + row) % 0x1_0000;
      if addr >= MemorySize then []
      else RowCells(RowStart(vx, vy, row), mem[addr], 0) + DrawCells(vx, vy, i, mem, n, row + 1)
  }

  /** Flipping `a` and then `b` is flipping `a + b`. */
  lemma {:induction false} FlipsAppend(d: seq<uint8>, a: seq<nat>, b: seq<nat>)
    ensures Flips(d, a + b) == Flips(Flips(d, a), b)
    decreases |a|
  {
    if a != [] {
      var ab := a + b;
      assert ab != [] && ab[0] == a[0] && ab[1..] == a[1..] + b;
      calc {
        Flips(d, ab);
        Flips(Flip(d, a[0]), a[1..] + b);
        { FlipsAppend(Flip(d, a[0]), a[1..], b); }
        Flips(Flips(Flip(d, a[0]), a[1..]), b);
        Flips(Flips(d, a), b);
      }
    } else {
      assert a + b == b;
    }
  }

  /** Flipping one cell of a black-and-white framebuffer turns that cell
      into the other value and keeps the others. */
  lemma FlipOne(d: seq<uint8>, c: nat)
    requires Binary(d)
    ensures Binary(Flip(d, c))
    ensures forall j :: 0 <= j < |d| ==> Flip(d, c)[j] == if j == c then 1 - d[j] else d[j]
  {
    if c < |d| {
      FlipBinary(d[c]);
    }
  }

  /** Flipping any cells keeps a black-and-white framebuffer so. */
  lemma {:induction false} FlipsBinary(d: seq<uint8>, cs: seq<nat>)
    requires Binary(d)
    ensures Binary(Flips(d, cs))
    decreases |cs|
  {
    if cs != [] {
      FlipOne(d, cs[0]);
      FlipsBinary(Flip(d, cs[0]), cs[1..]);
    }
  }

  /** On a black-and-white framebuffer, cell `c` ends up flipped exactly
      when it occurs an odd number of times in `cs`. */
  lemma {:induction false} FlipsParity(d: seq<uint8>, cs: seq<nat>, c: nat)
    requires Binary(d) && c < |d|
    ensures Flips(d, cs)[c] == (d[c] + multiset(cs)[c]) % 2
    decreases |cs|
  {
    if cs != [] {
      FlipOne(d, cs[0]);
      FlipsParity(Flip(d, cs[0]), cs[1..], c);
      CountHead(cs, c);
      if c == cs[0] {
        ParityStep(d[c], multiset(cs[1..])[c]);
      }
    }
  }

  /** The occurrences of `c` in a non-empty list: those in its tail, and
      one more when the head is `c`. */
  lemma CountHead(cs: seq<nat>, c: nat)
    requires cs != []
    ensures multiset(cs)[c] == multiset(cs[1..])[c] + (if c == cs[0] then 1 else 0)
  {
    assert cs == [cs[0]] + cs[1..];
  }

  /** Flipping a bit once more changes the parity of the count. */
  lemma ParityStep(b: int, k: nat)
    requires 0 <= b <= 1
    ensures (1 - b + k) % 2 == (b + (k + 1)) % 2
  {
  }

  /** Adding the same count twice leaves a bit's parity unchanged. */
  lemma ParityTwice(b: int, k: nat)
    requires 0 <= b <= 1
    ensures ((b + k) % 2 + k) % 2 == b
  {
    if k % 2 == 0 {
      assert (b + k) % 2 == b;
    } else {
      assert (b + k) % 2 == 1 - b;
    }
  }

  /** Bits `bit`..7 of a sprite row are drawn without fault exactly when
      their set bits land on the framebuffer, whatever the rest of the
      state. */
  lemma {:induction false} BlitDefined(m: Machine, pos: nat, sprite: uint8, bit: nat)
    requires Wf(m) && bit <= 8
    ensures BlitFrom(m, pos, sprite, bit).Ok? <==> RowOnScreen(pos, sprite, bit)
    decreases 8 - bit
  {
    if bit < 8 {
      if !MsbBit(sprite, bit) {
        BlitDefined(m, pos, sprite, bit + 1);
      } else if pos + bit < DisplaySize {
        BlitDefined(Toggle(m, pos + bit), pos, sprite, bit + 1);
      }
    }
  }

  /** Drawn without fault, bits `bit`..7 of a sprite row flip the cells
      RowCells lists. */
  lemma {:induction false} BlitIsFlips(m: Machine, pos: nat, sprite: uint8, bit: nat)
    requires Wf(m) && bit <= 8
    ensures var r := BlitFrom(m, pos, sprite, bit);
      r.Ok? ==> r.state.display == Flips(m.display, RowCells(pos, sprite, bit))
    decreases 8 - bit
  {
    if bit < 8 {
      var rest := RowCells(pos, sprite, bit + 1);
      if !MsbBit(sprite, bit) {
        BlitIsFlips(m, pos, sprite, bit + 1);
        assert RowCells(pos, sprite, bit) == rest;
      } else if pos + bit < DisplaySize {
        assert RowCells(pos, sprite, bit) == [pos + bit] + rest;
        var t := Toggle(m, pos + bit);
        BlitIsFlips(t, pos, sprite, bit + 1);
        assert t.display == Flip(m.display, pos + bit);
        assert Flips(m.display, [pos + bit]) == t.display;
        FlipsAppend(m.display, [pos + bit], rest);
      }
    }
  }

  /** With X, Y != F, DXYN's rows `row`..n-1 are drawn without fault
      exactly when DrawDefined holds for the VX, VY, I and memory they
      start from. */
  lemma {:induction false} DrawDefinedExactly(m: Machine, x: Reg, y: Reg, n: nat, row: nat)
    requires Wf(m) && x != VF && y != VF
    ensures DrawFrom(m, x, y, n, row).Ok? <==> DrawDefined(m.v[x], m.v[y], m.i, m.mem, n, row)
    decreases n - row
  {
    if row < n {
      var addr := (m.i + row) % 0x1_0000;
      if addr < MemorySize {
        var pos := RowStart(m.v[x], m.v[y], row);
        BlitDefined(m, pos, m.mem[addr], 0);
        var s := SpriteRow(m, x, y, row);
        if s.Ok? {
          BlitFrame(m, pos, m.mem[addr], 0);
          DrawDefinedExactly(s.state, x, y, n, row + 1);
        }
      }
    }
  }

  /** With X, Y != F, DXYN's rows `row`..n-1, drawn without fault, flip the
      cells DrawCells lists for the VX, VY, I and memory they start from. */
  lemma {:induction false} DrawIsFlips(m: Machine, x: Reg, y: Reg, n: nat, row: nat)
    requires Wf(m) && x != VF && y != VF
    ensures var r := DrawFrom(m, x, y, n, row);
      r.Ok? ==> r.state.display == Flips(m.display, DrawCells(m.v[x], m.v[y], m.i, m.mem, n, row))
    decreases n - row
  {
    if row < n {
      var s := SpriteRow(m, x, y, row);
      if s.Ok? {
        var addr := (m.i + row) % 0x1_0000;
        var cells := RowCells(RowStart(m.v[x], m.v[y], row), m.mem[addr], 0);
        var rest := DrawCells(m.v[x], m.v[y], m.i, m.mem, n, row + 1);
        SpriteRowIsFlips(m, x, y, row);
        DrawCellsStep(m.v[x], m.v[y], m.i, m.mem, n, row);
        DrawIsFlips(s.state, x, y, n, row + 1);
        FlipsAppend(m.display, cells, rest);
      }
    }
  }

  /** One sprite row drawn without fault (X, Y != F) flips the cells
      RowCells lists and keeps VX, VY, I and memory for the rows after it. */
  lemma SpriteRowIsFlips(m: Machine, x: Reg, y: Reg, row: nat)
    requires Wf(m) && x != VF && y != VF && SpriteRow(m, x, y, row).Ok?
    ensures var s := SpriteRow(m, x, y, row).state;
      var addr := (m.i + row) % 0x1_0000;
      addr < MemorySize &&
      s.v[x] == m.v[x] && s.v[y] == m.v[y] && s.i == m.i && s.mem == m.mem &&
      s.display == Flips(m.display, RowCells(RowStart(m.v[x], m.v[y], row), m.mem[addr], 0))
  {
    var addr := (m.i + row) % 0x1_0000;
    var pos := RowStart(m.v[x], m.v[y], row);
    BlitIsFlips(m, pos, m.mem[addr], 0);
    BlitFrame(m, pos, m.mem[addr], 0);
  }

  /** The cells of rows `row`..n-1 are those of row `row` followed by those
      of the later rows. */
  lemma DrawCellsStep(vx: uint8, vy: uint8, i: uint16, mem: seq<uint8>, n: nat, row: nat)
    requires |mem| == MemorySize && row < n && (i + row) % 0x1_0000 < MemorySize
    ensures DrawCells(vx, vy, i, mem, n, row) ==
      RowCells(RowStart(vx, vy, row), mem[(i + row) % 0x1_0000], 0) + DrawCells(vx, vy, i, mem, n, row + 1)
  {
  }

  /** Flipping the same cells twice gives a black-and-white framebuffer
      back. */
  lemma FlipsTwice(d: seq<uint8>, cs: seq<nat>)
    requires Binary(d)
    ensures Flips(Flips(d, cs), cs) == d
  {
    var d1 := Flips(d, cs);
    FlipsBinary(d, cs);
    forall c: nat | c < |d|
      ensures Flips(d1, cs)[c] == d[c]
    {
      FlipsParity(d, cs, c);
      FlipsParity(d1, cs, c);
      ParityTwice(d[c], multiset(cs)[c]);
    }
  }

  /** Drawing a sprite (X, Y != F) a second time, with VX, VY, I and memory
      as they were for the first drawing, erases it: the framebuffer is as
      before the first drawing, whatever ran in between. */
  lemma DrawTwiceRestores(m: Machine, m1: Machine, x: Reg, y: Reg, n: nat)
    requires Wf(m) && Wf(m1) && Binary(m.display) && x != VF && y != VF
    requires DrawFrom(m, x, y, n, 0).Ok?
    requires m1.display == DrawFrom(m, x, y, n, 0).state.display
    requires m1.v[x] == m.v[x] && m1.v[y] == m.v[y] && m1.i == m.i && m1.mem == m.mem
    ensures var r := DrawFrom(m1, x, y, n, 0);
      r.Ok? && r.state.display == m.display
  {
    var cs := DrawCells(m.v[x], m.v[y], m.i, m.mem, n, 0);
    DrawDefinedExactly(m, x, y, n, 0);
    DrawDefinedExactly(m1, x, y, n, 0);
    DrawIsFlips(m, x, y, n, 0);
    DrawIsFlips(m1, x, y, n, 0);
    FlipsTwice(m.display, cs);
  }

  /** DXYN executed twice in a row (X, Y != F) leaves the framebuffer as it
      was, with the display flag raised. */
  lemma DrawInstructionTwice(m: Machine, x: Reg, y: Reg, n: Reg, rnd: uint8)
    requires Wf(m) && Binary(m.display) && x != VF && y != VF
    requires Execute(m, Draw(x, y, n), rnd).Ok?
    ensures var m1 := Execute(m, Draw(x, y, n), rnd).state;
      var r := Execute(m1, Draw(x, y, n), rnd);
      r.Ok? && r.state.display == m.display && r.state.displaySet
  {
    var d := DrawFrom(m, x, y, n, 0);
    assert Execute(m, Draw(x, y, n), rnd) == Ok(d.state.(displaySet := true));
    var m1 := d.state.(displaySet := true);
    DrawFrame(m, x, y, n, 0);
    DrawTwiceRestores(m, m1, x, y, n);
    assert Execute(m1, Draw(x, y, n), rnd) == Ok(DrawFrom(m1, x, y, n, 0).state.(displaySet := true));
  }
}
