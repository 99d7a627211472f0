/** The current engine as functions on `State`: opcode decoding, the effect of every
    instruction, one interpreter step, and the key-wait completion. A Rust panic is a
    `Panic` outcome. */
module Chip8 {
  import opened Word
  import opened MachineState
  import Sprite

  /** The instructions the engine knows, with the operand digits it uses. */
  datatype Instr =
    | ClearScreen                          // 00E0 (any 0__0)
    | Return                               // 00EE (any 0__E)
    | Jump(nnn: Addr)                      // 1NNN
    | Call(nnn: Addr)                      // 2NNN
    | SkipEqImm(x: Nibble, nn: u8)         // 3XNN
    | SkipNeImm(x: Nibble, nn: u8)         // 4XNN
    | SkipEqReg(x: Nibble, y: Nibble)      // 5XY_
    | LoadImm(x: Nibble, nn: u8)           // 6XNN
    | AddImm(x: Nibble, nn: u8)            // 7XNN
    | Move(x: Nibble, y: Nibble)           // 8XY0
    | Or(x: Nibble, y: Nibble)             // 8XY1
    | And(x: Nibble, y: Nibble)            // 8XY2
    | Xor(x: Nibble, y: Nibble)            // 8XY3
    | AddReg(x: Nibble, y: Nibble)         // 8XY4
    | SubReg(x: Nibble, y: Nibble)         // 8XY5
    | ShiftRight(x: Nibble)                // 8X_6
    | SubRev(x: Nibble, y: Nibble)         // 8XY7
    | ShiftLeft(x: Nibble)                 // 8X_E
    | SkipNeReg(x: Nibble, y: Nibble)      // 9XY_
    | SetIndex(nnn: Addr)                  // ANNN
    | SetIndexOffset(nnn: Addr)            // BNNN
    | Random(x: Nibble, nn: u8)            // CXNN
    | Draw(x: Nibble, y: Nibble, n: Nibble) // DXYN
    | SkipKey(x: Nibble)                   // EX9E
    | SkipNoKey(x: Nibble)                 // EXA1
    | LoadDelay(x: Nibble)                 // FX_7
    | WaitKey(x: Nibble)                   // FX_A
    | SetDelay(x: Nibble)                  // FX15
    | StoreRegs(x: Nibble)                 // FX55
    | LoadRegs(x: Nibble)                  // FX65
    | SetSound(x: Nibble)                  // FX_8
    | AddIndex(x: Nibble)                  // FX_E
    | FontAddr(x: Nibble)                  // FX_9
    | StoreDecimal(x: Nibble)              // FX_3

  /** `execute_opcode`'s dispatch. The 0 family looks only at the last digit, 5XYN and
      9XYN ignore N, 8XY6 and 8XYE ignore Y, and in the F family only the 5 group looks
      at the third digit. `None` is the "Unknown opcode" panic. */
  function Decode(op: u16): (r: Option<Instr>)
  {
    var x := RegisterX(op);
    var y := RegisterY(op);
    var n := LowNibble(op);
    var nn := LowByte(op);
    var nnn := Address(op);
    match Family(op)
    case 0x0 => if n == 0x0 then Some(ClearScreen) else if n == 0xE then Some(Return) else None
    case 0x1 => Some(Jump(nnn))
    case 0x2 => Some(Call(nnn))
    case 0x3 => Some(SkipEqImm(x, nn))
    case 0x4 => Some(SkipNeImm(x, nn))
    case 0x5 => Some(SkipEqReg(x, y))
    case 0x6 => Some(LoadImm(x, nn))
    case 0x7 => Some(AddImm(x, nn))
    case 0x8 =>
      if n == 0x0 then Some(Move(x, y))
      else if n == 0x1 then Some(Or(x, y))
      else if n == 0x2 then Some(And(x, y))
      else if n == 0x3 then Some(Xor(x, y))
      else if n == 0x4 then Some(AddReg(x, y))
      else if n == 0x5 then Some(SubReg(x, y))
      else if n == 0x6 then Some(ShiftRight(x))
      else if n == 0x7 then Some(SubRev(x, y))
      else if n == 0xE then Some(ShiftLeft(x))
      else None
    case 0x9 => Some(SkipNeReg(x, y))
    case 0xA => Some(SetIndex(nnn))
    case 0xB => Some(SetIndexOffset(nnn))
    case 0xC => Some(Random(x, nn))
    case 0xD => Some(Draw(x, y, n))
    case 0xE => if nn == 0x9E then Some(SkipKey(x)) else if nn == 0xA1 then Some(SkipNoKey(x)) else None
    case _ =>
      if n == 0x7 then Some(LoadDelay(x))
      else if n == 0xA then Some(WaitKey(x))
      else if n == 0x5 then
        (if y == 0x1 then Some(SetDelay(x))
         else if y == 0x5 then Some(StoreRegs(x))
         else if y == 0x6 then Some(LoadRegs(x))
         else None)
      else if n == 0x8 then Some(SetSound(x))
      else if n == 0xE then Some(AddIndex(x))
      else if n == 0x9 then Some(FontAddr(x))
      else if n == 0x3 then Some(StoreDecimal(x))
      else None
  }

  /** The family digit, the top hexadecimal digit of the opcode, of each instruction. */
  function FamilyOf(i: Instr): Nibble
  {
    match i
    case ClearScreen | Return => 0x0
    case Jump(_) => 0x1
    case Call(_) => 0x2
    case SkipEqImm(_, _) => 0x3
    case SkipNeImm(_, _) => 0x4
    case SkipEqReg(_, _) => 0x5
    case LoadImm(_, _) => 0x6
    case AddImm(_, _) => 0x7
    case Move(_, _) | Or(_, _) | And(_, _) | Xor(_, _) | AddReg(_, _) | SubReg(_, _)
      | ShiftRight(_) | SubRev(_, _) | ShiftLeft(_) => 0x8
    case SkipNeReg(_, _) => 0x9
    case SetIndex(_) => 0xA
    case SetIndexOffset(_) => 0xB
    case Random(_, _) => 0xC
    case Draw(_, _, _) => 0xD
    case SkipKey(_) | SkipNoKey(_) => 0xE
    case _ => 0xF
  }

  /** Every decoded instruction belongs to the family of its opcode. */
  lemma DecodeFamily(op: u16)
    ensures Decode(op).Some? ==> FamilyOf(Decode(op).value) == Family(op)
  {
  }

  /** The canonical opcode of an instruction, as the instruction set writes it. */
  function Encode(i: Instr): u16
  {
    match i
    case ClearScreen => 0x00E0
    case Return => 0x00EE
    case Jump(nnn) => 0x1000 + nnn
    case Call(nnn) => 0x2000 + nnn
    case SkipEqImm(x, nn) => Assemble(0x3, x, nn / 0x10, nn % 0x10)
    case SkipNeImm(x, nn) => Assemble(0x4, x, nn / 0x10, nn % 0x10)
    case SkipEqReg(x, y) => Assemble(0x5, x, y, 0x0)
    case LoadImm(x, nn) => Assemble(0x6, x, nn / 0x10, nn % 0x10)
    case AddImm(x, nn) => Assemble(0x7, x, nn / 0x10, nn % 0x10)
    case Move(x, y) => Assemble(0x8, x, y, 0x0)
    case Or(x, y) => Assemble(0x8, x, y, 0x1)
    case And(x, y) => Assemble(0x8, x, y, 0x2)
    case Xor(x, y) => Assemble(0x8, x, y, 0x3)
    case AddReg(x, y) => Assemble(0x8, x, y, 0x4)
    case SubReg(x, y) => Assemble(0x8, x, y, 0x5)
    case ShiftRight(x) => Assemble(0x8, x, 0x0, 0x6)
    case SubRev(x, y) => Assemble(0x8, x, y, 0x7)
    case ShiftLeft(x) => Assemble(0x8, x, 0x0, 0xE)
    case SkipNeReg(x, y) => Assemble(0x9, x, y, 0x0)
    case SetIndex(nnn) => 0xA000 + nnn
    case SetIndexOffset(nnn) => 0xB000 + nnn
    case Random(x, nn) => Assemble(0xC, x, nn / 0x10, nn % 0x10)
    case Draw(x, y, n) => Assemble(0xD, x, y, n)
    case SkipKey(x) => Assemble(0xE, x, 0x9, 0xE)
    case SkipNoKey(x) => Assemble(0xE, x, 0xA, 0x1)
    case LoadDelay(x) => Assemble(0xF, x, 0x0, 0x7)
    case WaitKey(x) => Assemble(0xF, x, 0x0, 0xA)
    case SetDelay(x) => Assemble(0xF, x, 0x1, 0x5)
    case StoreRegs(x) => Assemble(0xF, x, 0x5, 0x5)
    case LoadRegs(x) => Assemble(0xF, x, 0x6, 0x5)
    case SetSound(x) => Assemble(0xF, x, 0x1, 0x8)
    case AddIndex(x) => Assemble(0xF, x, 0x1, 0xE)
    case FontAddr(x) => Assemble(0xF, x, 0x2, 0x9)
    case StoreDecimal(x) => Assemble(0xF, x, 0x3, 0x3)
  }

  /** `DecodeEncode` for 00E0 and 00EE. */
  lemma DecodeEncodeSystem(i: Instr)
    requires i.ClearScreen? || i.Return?
    ensures Decode(Encode(i)) == Some(i)
  {
    if i.ClearScreen? {
      assert Decode(0x00E0) == Some(ClearScreen);
    } else {
      assert Decode(0x00EE) == Some(Return);
    }
  }

  /** `DecodeEncode` for 1NNN and 2NNN. */
  lemma DecodeEncodeControl(i: Instr)
    requires i.Jump? || i.Call?
    ensures Decode(Encode(i)) == Some(i)
  {
    var f: Nibble := if i.Jump? then 0x1 else 0x2;
    var op := Encode(i);
    assert op == 0x1000 * f + i.nnn;
    assert Family(op) == f && Address(op) == i.nnn;
  }

  /** `DecodeEncode` for the 3 to 7 families. */
  lemma DecodeEncodeImmediate(i: Instr)
    requires i.SkipEqImm? || i.SkipNeImm? || i.SkipEqReg? || i.LoadImm? || i.AddImm?
    ensures Decode(Encode(i)) == Some(i)
  {
    match i
    case SkipEqImm(x, nn) => AssembleFields(0x3, x, nn / 0x10, nn % 0x10);
    case SkipNeImm(x, nn) => AssembleFields(0x4, x, nn / 0x10, nn % 0x10);
    case SkipEqReg(x, y) => AssembleFields(0x5, x, y, 0x0);
    case LoadImm(x, nn) => AssembleFields(0x6, x, nn / 0x10, nn % 0x10);
    case AddImm(x, nn) => AssembleFields(0x7, x, nn / 0x10, nn % 0x10);
  }

  /** `DecodeEncode` for 8XY0 to 8XY3. */
  lemma DecodeEncodeLogic(i: Instr)
    requires i.Move? || i.Or? || i.And? || i.Xor?
    ensures Decode(Encode(i)) == Some(i)
  {
    match i
    case Move(x, y) => AssembleFields(0x8, x, y, 0x0);
    case Or(x, y) => AssembleFields(0x8, x, y, 0x1);
    case And(x, y) => AssembleFields(0x8, x, y, 0x2);
    case Xor(x, y) => AssembleFields(0x8, x, y, 0x3);
  }

  /** `DecodeEncode` for 8XY4 to 8XYE. */
  lemma DecodeEncodeAlu(i: Instr)
    requires i.AddReg? || i.SubReg? || i.ShiftRight? || i.SubRev? || i.ShiftLeft?
    ensures Decode(Encode(i)) == Some(i)
  {
    var y: Nibble := if i.ShiftRight? || i.ShiftLeft? then 0x0 else i.y;
    var n: Nibble := if i.AddReg? then 0x4 else if i.SubReg? then 0x5 else if i.ShiftRight? then 0x6
      else if i.SubRev? then 0x7 else 0xE;
    assert Encode(i) == Assemble(0x8, i.x, y, n);
    AssembleFields(0x8, i.x, y, n);
  }

  /** `DecodeEncode` for the 9, A and B families. */
  lemma DecodeEncodeIndex(i: Instr)
    requires i.SkipNeReg? || i.SetIndex? || i.SetIndexOffset?
    ensures Decode(Encode(i)) == Some(i)
  {
    match i
    case SkipNeReg(x, y) => AssembleFields(0x9, x, y, 0x0);
    case SetIndex(nnn) =>
      assert Family(Encode(i)) == 0xA && Address(Encode(i)) == nnn;
    case SetIndexOffset(nnn) =>
      assert Family(Encode(i)) == 0xB && Address(Encode(i)) == nnn;
  }

  /** `DecodeEncode` for the C and D families. */
  lemma DecodeEncodeSprites(i: Instr)
    requires i.Random? || i.Draw?
    ensures Decode(Encode(i)) == Some(i)
  {
    match i
    case Random(x, nn) => AssembleFields(0xC, x, nn / 0x10, nn % 0x10);
    case Draw(x, y, n) => AssembleFields(0xD, x, y, n);
  }

  /** `DecodeEncode` for EX9E and EXA1. */
  lemma DecodeEncodeKeys(i: Instr)
    requires i.SkipKey? || i.SkipNoKey?
    ensures Decode(Encode(i)) == Some(i)
  {
    var y: Nibble := if i.SkipKey? then 0x9 else 0xA;
    var n: Nibble := if i.SkipKey? then 0xE else 0x1;
    assert Encode(i) == Assemble(0xE, i.x, y, n);
    AssembleFields(0xE, i.x, y, n);
  }

  /** `DecodeEncode` for FX07, FX0A, FX15 and FX18. */
  lemma DecodeEncodeTimers(i: Instr)
    requires i.LoadDelay? || i.WaitKey? || i.SetDelay? || i.SetSound?
    ensures Decode(Encode(i)) == Some(i)
  {
    var y: Nibble := if i.LoadDelay? || i.WaitKey? then 0x0 else 0x1;
    var n: Nibble := if i.LoadDelay? then 0x7 else if i.WaitKey? then 0xA else if i.SetDelay? then 0x5 else 0x8;
    assert Encode(i) == Assemble(0xF, i.x, y, n);
    AssembleFields(0xF, i.x, y, n);
  }

  /** `DecodeEncode` for FX55, FX65, FX1E, FX29 and FX33. */
  lemma DecodeEncodeMemory(i: Instr)
    requires i.StoreRegs? || i.LoadRegs? || i.AddIndex? || i.FontAddr? || i.StoreDecimal?
    ensures Decode(Encode(i)) == Some(i)
  {
    var y: Nibble := if i.StoreRegs? then 0x5 else if i.LoadRegs? then 0x6 else if i.AddIndex? then 0x1
      else if i.FontAddr? then 0x2 else 0x3;
    var n: Nibble := if i.StoreRegs? || i.LoadRegs? then 0x5 else if i.AddIndex? then 0xE
      else if i.FontAddr? then 0x9 else 0x3;
    assert Encode(i) == Assemble(0xF, i.x, y, n);
    AssembleFields(0xF, i.x, y, n);
  }

  /** Decoding the canonical opcode of an instruction gives the instruction back. */
  lemma DecodeEncode(i: Instr)
    ensures Decode(Encode(i)) == Some(i)
  {
    if i.ClearScreen? || i.Return? {
      DecodeEncodeSystem(i);
    } else if i.Jump? || i.Call? {
      DecodeEncodeControl(i);
    } else if i.SkipEqImm? || i.SkipNeImm? || i.SkipEqReg? || i.LoadImm? || i.AddImm? {
      DecodeEncodeImmediate(i);
    } else if i.Move? || i.Or? || i.And? || i.Xor? {
      DecodeEncodeLogic(i);
    } else if i.AddReg? || i.SubReg? || i.ShiftRight? || i.SubRev? || i.ShiftLeft? {
      DecodeEncodeAlu(i);
    } else if i.SkipNeReg? || i.SetIndex? || i.SetIndexOffset? {
      DecodeEncodeIndex(i);
    } else if i.Random? || i.Draw? {
      DecodeEncodeSprites(i);
    } else if i.SkipKey? || i.SkipNoKey? {
      DecodeEncodeKeys(i);
    } else if i.LoadDelay? || i.WaitKey? || i.SetDelay? || i.SetSound? {
      DecodeEncodeTimers(i);
    } else {
      DecodeEncodeMemory(i);
    }
  }

  /** The digits the dispatch does not look at: any opcode 0__0 clears the screen, any
      0__E returns, N of 5XYN and 9XYN and Y of 8XY6, 8XYE and of the F opcodes other
      than FX15, FX55 and FX65 do not matter. */
  lemma DecodeIgnoresDigits(f: Nibble, x: Nibble, y: Nibble, n: Nibble)
    ensures f == 0x0 && n == 0x0 ==> Decode(Assemble(f, x, y, n)) == Some(ClearScreen)
    ensures f == 0x0 && n == 0xE ==> Decode(Assemble(f, x, y, n)) == Some(Return)
    ensures f == 0x5 ==> Decode(Assemble(f, x, y, n)) == Some(SkipEqReg(x, y))
    ensures f == 0x9 ==> Decode(Assemble(f, x, y, n)) == Some(SkipNeReg(x, y))
    ensures f == 0x8 && n == 0x6 ==> Decode(Assemble(f, x, y, n)) == Some(ShiftRight(x))
    ensures f == 0x8 && n == 0xE ==> Decode(Assemble(f, x, y, n)) == Some(ShiftLeft(x))
    ensures f == 0xF && n == 0x7 ==> Decode(Assemble(f, x, y, n)) == Some(LoadDelay(x))
    ensures f == 0xF && n == 0xA ==> Decode(Assemble(f, x, y, n)) == Some(WaitKey(x))
    ensures f == 0xF && n == 0x3 ==> Decode(Assemble(f, x, y, n)) == Some(StoreDecimal(x))
    ensures f == 0xF && n == 0x8 ==> Decode(Assemble(f, x, y, n)) == Some(SetSound(x))
    ensures f == 0xF && n == 0xE ==> Decode(Assemble(f, x, y, n)) == Some(AddIndex(x))
    ensures f == 0xF && n == 0x9 ==> Decode(Assemble(f, x, y, n)) == Some(FontAddr(x))
  {
    AssembleFields(f, x, y, n);
  }

  /** The opcodes that panic as unknown: a 0 opcode ending in neither 0 nor E, an 8
      opcode ending in 8 to D or F, an E opcode other than EX9E and EXA1, an F opcode
      FX_5 other than FX15, FX55 and FX65, and an F opcode ending in 0, 1, 2, 4, 6, B, C,
      D or F. */
  lemma UnknownOpcodes(f: Nibble, x: Nibble, y: Nibble, n: Nibble)
    ensures Decode(Assemble(f, x, y, n)).None?
      <==> (|| (f == 0x0 && n != 0x0 && n != 0xE)
            || (f == 0x8 && 0x8 <= n && n != 0xE)
            || (f == 0xE && !(y == 0x9 && n == 0xE) && !(y == 0xA && n == 0x1))
            || (f == 0xF && n == 0x5 && y != 0x1 && y != 0x5 && y != 0x6)
            || (f == 0xF && n in {0x0, 0x1, 0x2, 0x4, 0x6, 0xB, 0xC, 0xD, 0xF}))
  {
    AssembleFields(f, x, y, n);
  }

  /** The value of VF for a flag. */
  function Flag(b: bool): (v: u8)
    ensures v < 2 && (v == 1 <==> b)
  {
    if b then 1 else 0
  }

  /** The counter moved on to the next opcode. */
  function Next(s: State): State
    requires s.programCounter + 2 < 0x1_0000
  {
    s.(programCounter := s.programCounter + 2)
  }

  /** Instructions that only move the counter or use the stack: clear, return, jump,
      call and the skips. */
  predicate IsFlow(i: Instr)
  {
    i.ClearScreen? || i.Return? || i.Jump? || i.Call? || i.SkipEqImm? || i.SkipNeImm? || i.SkipEqReg?
    || i.SkipNeReg? || i.SkipKey? || i.SkipNoKey?
  }

  /** Instructions that only write registers: 6XNN, 7XNN, the 8 family and CXNN. */
  predicate IsArithmetic(i: Instr)
  {
    i.LoadImm? || i.AddImm? || i.Move? || i.Or? || i.And? || i.Xor? || i.AddReg? || i.SubReg?
    || i.ShiftRight? || i.SubRev? || i.ShiftLeft? || i.Random?
  }

  /** The effect of one decoded instruction. `rnd` is the random byte CXNN draws. The
      counter is that of a fetched opcode, so advancing it cannot overflow. */
  function Exec(s: State, i: Instr, rnd: u8): (r: Outcome)
    requires s.Valid() && s.programCounter + 1 < MemorySize
    ensures r.Ok? ==> r.state.Valid()
  {
    if IsFlow(i) then ExecFlow(s, i)
    else if IsArithmetic(i) then Ok(ExecArithmetic(s, i, rnd))
    else ExecDevices(s, i)
  }

  function ExecFlow(s: State, i: Instr): (r: Outcome)
    requires s.Valid() && s.programCounter + 1 < MemorySize && IsFlow(i)
    ensures r.Ok? ==> r.state.Valid()
  {
    var v := s.registers;
    match i
    case ClearScreen => Ok(Next(s).(screen := Blank()))
    case Return =>
      if s.stackPointer == 0 then Panic(StackUnderflow)
      else Ok(s.(programCounter := s.stack[s.stackPointer - 1] + 2, stackPointer := s.stackPointer - 1))
    case Jump(nnn) => Ok(s.(programCounter := nnn))
    case Call(nnn) =>
      if s.stackPointer as int >= StackSize then Panic(StackOverflow)
      else Ok(s.(stack := s.stack[s.stackPointer := s.programCounter], stackPointer := s.stackPointer + 1,
                 programCounter := nnn))
    case SkipEqImm(x, nn) => Ok(Skip(s, v[x] == nn))
    case SkipNeImm(x, nn) => Ok(Skip(s, v[x] != nn))
    case SkipEqReg(x, y) => Ok(Skip(s, v[x] == v[y]))
    case SkipNeReg(x, y) => Ok(Skip(s, v[x] != v[y]))
    case SkipKey(x) =>
      if v[x] >= KeyCount then Panic(InvalidKey(v[x])) else Ok(Skip(s, s.keyState[v[x]]))
    case SkipNoKey(x) =>
      if v[x] >= KeyCount then Panic(InvalidKey(v[x])) else Ok(Skip(s, !s.keyState[v[x]]))
  }

  /** The new registers of an arithmetic instruction. */
  function Arithmetic(v: seq<u8>, i: Instr, rnd: u8): (w: seq<u8>)
    requires |v| == RegisterCount && IsArithmetic(i)
    ensures |w| == RegisterCount
  {
    match i
    case LoadImm(x, nn) => v[x := nn]
    case AddImm(x, nn) => v[x := WrappingAdd(v[x], nn)]
    case Move(x, y) => v[x := v[y]]
    case Or(x, y) => v[x := BitOr(v[x], v[y])]
    case And(x, y) => v[x := BitAnd(v[x], v[y])]
    case Xor(x, y) => v[x := BitXor(v[x], v[y])]
    case AddReg(x, y) =>
      var sum := OverflowingAdd(v[x], v[y]);
      v[FlagRegister := Flag(sum.1)][x := sum.0]
    case SubReg(x, y) => v[FlagRegister := Flag(v[x] > v[y])][x := WrappingSub(v[x], v[y])]
    case ShiftRight(x) =>
      var shifted := ShiftRightOut(v[x]);
      v[x := shifted.0][FlagRegister := shifted.1]
    case SubRev(x, y) => v[FlagRegister := Flag(v[y] > v[x])][x := WrappingSub(v[y], v[x])]
    case ShiftLeft(x) =>
      var shifted := ShiftLeftOut(v[x]);
      v[x := shifted.0][FlagRegister := shifted.1]
    case Random(x, nn) => v[x := BitAnd(rnd, nn)]
  }

  function ExecArithmetic(s: State, i: Instr, rnd: u8): (t: State)
    requires s.Valid() && s.programCounter + 1 < MemorySize && IsArithmetic(i)
    ensures t.Valid()
  {
    Next(s).(registers := Arithmetic(s.registers, i, rnd))
  }

  function ExecDevices(s: State, i: Instr): (r: Outcome)
    requires s.Valid() && s.programCounter + 1 < MemorySize && !IsFlow(i) && !IsArithmetic(i)
    ensures r.Ok? ==> r.state.Valid()
  {
    var v := s.registers;
    var idx := s.indexRegister;
    var next := Next(s);
    match i
    case SetIndex(nnn) => Ok(next.(indexRegister := nnn))
    case SetIndexOffset(nnn) => Ok(next.(indexRegister := nnn + v[0]))
    case Draw(x, y, n) =>
      if !Sprite.Readable(s.memory, idx, n, v[x], v[y]) then Panic(MemoryOutOfRange)
      else
        var drawn := Sprite.Draw(s.screen, s.memory, idx, n, v[x], v[y]);
        Ok(next.(registers := v[FlagRegister := Flag(drawn.1)], screen := drawn.0))
    case LoadDelay(x) => Ok(next.(registers := v[x := s.delayTimer]))
    case WaitKey(_) => Ok(s.(blockedOnKeyPress := true, keyState := NoKeys()))
    case SetDelay(x) => Ok(next.(delayTimer := v[x]))
    case StoreRegs(x) =>
      if idx + x >= MemorySize then Panic(MemoryOutOfRange)
      else Ok(next.(memory := StoreRegisters(s.memory, v, idx, x)))
    case LoadRegs(x) =>
      if idx + x >= MemorySize then Panic(MemoryOutOfRange)
      else Ok(next.(registers := LoadRegisters(v, s.memory, idx, x)))
    case SetSound(x) => Ok(next.(soundTimer := v[x]))
    case AddIndex(x) =>
      if idx + v[x] >= 0x1_0000 then Panic(IndexOverflow) else Ok(next.(indexRegister := idx + v[x]))
    case FontAddr(x) =>
      if v[x] > 0xF then Panic(InvalidSprite(v[x])) else Ok(next.(indexRegister := SpriteAddress(v[x])))
    case StoreDecimal(x) =>
      if idx + 2 >= MemorySize then Panic(MemoryOutOfRange)
      else Ok(next.(memory := StoreBcd(s.memory, idx, v[x])))
  }

  /** What a control-flow instruction leaves alone: everything but the counter, and the
      screen for 00E0 and the stack for 2NNN and 00EE. */
  lemma FlowFrame(s: State, i: Instr)
    requires s.Valid() && s.programCounter + 1 < MemorySize && IsFlow(i) && ExecFlow(s, i).Ok?
    ensures var t := ExecFlow(s, i).state;
      && t.memory == s.memory && t.registers == s.registers && t.indexRegister == s.indexRegister
      && (!i.ClearScreen? ==> t.screen == s.screen)
      && (!(i.Call? || i.Return?) ==> t.stack == s.stack && t.stackPointer == s.stackPointer)
      && t.keyState == s.keyState && t.blockedOnKeyPress == s.blockedOnKeyPress
      && t.delayTimer == s.delayTimer && t.soundTimer == s.soundTimer
  {
  }

  /** What an instruction of the A to F families other than the skips leaves alone. */
  lemma DevicesFrame(s: State, i: Instr)
    requires s.Valid() && s.programCounter + 1 < MemorySize && !IsFlow(i) && !IsArithmetic(i)
    requires ExecDevices(s, i).Ok?
    ensures var t := ExecDevices(s, i).state;
      && (!(i.StoreRegs? || i.StoreDecimal?) ==> t.memory == s.memory)
      && (!i.Draw? ==> t.screen == s.screen)
      && t.stack == s.stack && t.stackPointer == s.stackPointer
      && (!i.WaitKey? ==> t.keyState == s.keyState && t.blockedOnKeyPress == s.blockedOnKeyPress)
      && (!i.SetDelay? ==> t.delayTimer == s.delayTimer)
      && (!i.SetSound? ==> t.soundTimer == s.soundTimer)
  {
  }

  /** What an instruction leaves alone: only FX55 and FX33 write memory, only 00E0 and
      DXYN the screen, only 2NNN and 00EE the stack, only FX0A the keys and the wait, and
      only FX15 and FX18 the timers. */
  lemma ExecFrame(s: State, i: Instr, rnd: u8)
    requires s.Valid() && s.programCounter + 1 < MemorySize && Exec(s, i, rnd).Ok?
    ensures var t := Exec(s, i, rnd).state;
      && (!(i.StoreRegs? || i.StoreDecimal?) ==> t.memory == s.memory)
      && (!(i.ClearScreen? || i.Draw?) ==> t.screen == s.screen)
      && (!(i.Call? || i.Return?) ==> t.stack == s.stack && t.stackPointer == s.stackPointer)
      && (!i.WaitKey? ==> t.keyState == s.keyState && t.blockedOnKeyPress == s.blockedOnKeyPress)
      && (!i.SetDelay? ==> t.delayTimer == s.delayTimer)
      && (!i.SetSound? ==> t.soundTimer == s.soundTimer)
  {
    if IsFlow(i) {
      FlowFrame(s, i);
    } else if !IsArithmetic(i) {
      DevicesFrame(s, i);
    }
  }

  /** `execute_opcode` on a raw opcode. */
  function ExecuteOpcode(s: State, op: u16, rnd: u8): (r: Outcome)
    requires s.Valid() && s.programCounter + 1 < MemorySize
    ensures Decode(op).None? <==> r == Panic(UnknownOpcode(op))
    ensures r.Ok? ==> r.state.Valid()
  {
    match Decode(op)
    case None => Panic(UnknownOpcode(op))
    case Some(i) => Exec(s, i, rnd)
  }

  /** `execute_instruction`: nothing at all while the machine waits for a key, otherwise
      the opcode at the counter. */
  function Step(s: State, rnd: u8): (r: Outcome)
    requires s.Valid()
    ensures s.blockedOnKeyPress ==> r == Ok(s)
    ensures r.Ok? ==> r.state.Valid()
  {
    if s.blockedOnKeyPress then Ok(s)
    else match FetchOpcode(s.memory, s.programCounter)
      case None => Panic(MemoryOutOfRange)
      case Some(op) => ExecuteOpcode(s, op, rnd)
  }

  /** An unblocked step executes exactly the big-endian word at the counter, and panics
      when the counter leaves no room for a whole opcode. */
  lemma StepExecutesFetched(s: State, rnd: u8)
    requires s.Valid() && !s.blockedOnKeyPress
    ensures s.programCounter + 1 >= MemorySize ==> Step(s, rnd) == Panic(MemoryOutOfRange)
    ensures s.programCounter + 1 < MemorySize ==>
      Step(s, rnd) == ExecuteOpcode(s, (s.memory[s.programCounter] as int) * 0x100 + s.memory[s.programCounter + 1], rnd)
  {
  }

  /** `complete_fx0a`: the key goes into the register named by the opcode at the counter,
      the wait ends and the counter moves past that opcode. */
  function CompleteFx0a(s: State, key: u8): (r: Outcome)
    requires s.Valid()
    ensures r.Ok? <==> s.programCounter + 1 < MemorySize
    ensures r.Ok? ==> r.state.Valid() && !r.state.blockedOnKeyPress
    ensures r.Ok? ==> r.state == s.(registers := s.registers[s.memory[s.programCounter] % 0x10 := key],
                                    blockedOnKeyPress := false, programCounter := s.programCounter + 2)
  {
    match FetchOpcode(s.memory, s.programCounter)
    case None => Panic(MemoryOutOfRange)
    case Some(op) =>
      Ok(s.(registers := s.registers[RegisterX(op) := key], blockedOnKeyPress := false,
            programCounter := s.programCounter + 2))
  }

  /** Steps with the given random bytes until the bytes run out or the engine panics. */
  function Run(s: State, rnds: seq<u8>): (r: Outcome)
    requires s.Valid()
    ensures r.Ok? ==> r.state.Valid()
    decreases |rnds|
  {
    if |rnds| == 0 then Ok(s)
    else match Step(s, rnds[0])
      case Panic(f) => Panic(f)
      case Ok(t) => Run(t, rnds[1..])
  }

  /** A machine waiting for a key stays exactly as it is however long it runs. */
  lemma {:induction false} RunWhileBlocked(s: State, rnds: seq<u8>)
    requires s.Valid() && s.blockedOnKeyPress
    ensures Run(s, rnds) == Ok(s)
    decreases |rnds|
  {
    if |rnds| > 0 {
      RunWhileBlocked(s, rnds[1..]);
    }
  }

  /** Running two sequences of steps one after the other is running their concatenation. */
  lemma {:induction false} RunConcat(s: State, first: seq<u8>, second: seq<u8>)
    requires s.Valid()
    ensures Run(s, first + second) == match Run(s, first) case Ok(t) => Run(t, second) case Panic(f) => Panic(f)
    decreases |first|
  {
    if |first| == 0 {
      assert first + second == second;
    } else {
      assert (first + second)[0] == first[0];
      assert (first + second)[1..] == first[1..] + second;
      match Step(s, first[0])
      case Panic(f) =>
      case Ok(t) => RunConcat(t, first[1..], second);
    }
  }

  /** A call pushes the counter and jumps; the matching return, from the called address,
      pops it and resumes after the call. Only the stack slot used stays written. */
  lemma CallThenReturn(s: State, nnn: Addr, rnd: u8)
    requires s.Valid() && s.programCounter + 1 < MemorySize && s.stackPointer < StackSize
    requires nnn + 1 < MemorySize
    ensures Exec(s, Call(nnn), rnd).Ok?
    ensures var t := Exec(s, Call(nnn), rnd).state;
      t.programCounter == nnn && t.stackPointer == s.stackPointer + 1 && t.stack[s.stackPointer] == s.programCounter
      && Exec(t, Return, rnd)
         == Ok(s.(programCounter := s.programCounter + 2, stack := s.stack[s.stackPointer := s.programCounter]))
  {
  }

  /** Return needs a pushed address and call a free slot. */
  lemma StackFaults(s: State, nnn: Addr, rnd: u8)
    requires s.Valid() && s.programCounter + 1 < MemorySize
    ensures Exec(s, Return, rnd).Panic? <==> s.stackPointer == 0
    ensures Exec(s, Call(nnn), rnd).Panic? <==> s.stackPointer as int == StackSize
  {
  }

  /** The condition under which a skip opcode skips, as the instruction set states it. */
  predicate SkipTaken(s: State, i: Instr)
    requires s.Valid() && (i.SkipKey? || i.SkipNoKey? ==> s.registers[i.x] < KeyCount)
  {
    match i
    case SkipEqImm(x, nn) => s.registers[x] == nn
    case SkipNeImm(x, nn) => s.registers[x] != nn
    case SkipEqReg(x, y) => s.registers[x] == s.registers[y]
    case SkipNeReg(x, y) => s.registers[x] != s.registers[y]
    case SkipKey(x) => s.keyState[s.registers[x]]
    case SkipNoKey(x) => !s.keyState[s.registers[x]]
    case _ => false
  }

  /** A skip opcode moves the counter by 4 when its condition holds and by 2 otherwise
      and changes nothing else; the key skips panic on a register above 15. */
  lemma SkipsAdvance(s: State, i: Instr, rnd: u8)
    requires s.Valid() && s.programCounter + 1 < MemorySize
    requires i.SkipEqImm? || i.SkipNeImm? || i.SkipEqReg? || i.SkipNeReg? || i.SkipKey? || i.SkipNoKey?
    ensures (i.SkipKey? || i.SkipNoKey?) && s.registers[i.x] >= KeyCount ==>
      Exec(s, i, rnd) == Panic(InvalidKey(s.registers[i.x]))
    ensures !((i.SkipKey? || i.SkipNoKey?) && s.registers[i.x] >= KeyCount) ==>
      Exec(s, i, rnd) == Ok(s.(programCounter := s.programCounter + if SkipTaken(s, i) then 4 else 2))
  {
  }

  /** 8XY4: the sum modulo 256 with VF = 1 exactly when it exceeds 255. VF is written
      first, so for X = F the sum wins. */
  lemma AddRegisters(s: State, x: Nibble, y: Nibble, rnd: u8)
    requires s.Valid() && s.programCounter + 1 < MemorySize
    ensures Exec(s, AddReg(x, y), rnd).Ok?
    ensures var v, w := s.registers, Exec(s, AddReg(x, y), rnd).state.registers;
      && w[x] == (v[x] as int + v[y]) % 0x100
      && (x != FlagRegister ==> (w[FlagRegister] == 1 <==> v[x] as int + v[y] > 0xFF) && w[FlagRegister] < 2)
      && forall j :: 0 <= j < RegisterCount && j != x && j != FlagRegister ==> w[j] == v[j]
  {
  }

  /** 8XY5 and 8XY7: the difference modulo 256 with VF = 1 exactly when the minuend is
      strictly greater (equal operands give VF = 0). VF is written first. */
  lemma SubtractRegisters(s: State, x: Nibble, y: Nibble, rnd: u8)
    requires s.Valid() && s.programCounter + 1 < MemorySize
    ensures Exec(s, SubReg(x, y), rnd).Ok? && Exec(s, SubRev(x, y), rnd).Ok?
    ensures var v, w := s.registers, Exec(s, SubReg(x, y), rnd).state.registers;
      && w[x] == (v[x] as int - v[y]) % 0x100
      && (x != FlagRegister ==> (w[FlagRegister] == 1 <==> v[x] > v[y]) && w[FlagRegister] < 2)
      && forall j :: 0 <= j < RegisterCount && j != x && j != FlagRegister ==> w[j] == v[j]
    ensures var v, w := s.registers, Exec(s, SubRev(x, y), rnd).state.registers;
      && w[x] == (v[y] as int - v[x]) % 0x100
      && (x != FlagRegister ==> (w[FlagRegister] == 1 <==> v[y] > v[x]) && w[FlagRegister] < 2)
      && forall j :: 0 <= j < RegisterCount && j != x && j != FlagRegister ==> w[j] == v[j]
  {
  }

  /** 8XY6 and 8XYE: VX shifted by one, and VF the bit shifted out, written after VX, so
      for X = F the flag wins. */
  lemma ShiftRegisters(s: State, x: Nibble, rnd: u8)
    requires s.Valid() && s.programCounter + 1 < MemorySize
    ensures Exec(s, ShiftRight(x), rnd).Ok? && Exec(s, ShiftLeft(x), rnd).Ok?
    ensures var v, w := s.registers, Exec(s, ShiftRight(x), rnd).state.registers;
      && w[FlagRegister] == v[x] % 2
      && (x != FlagRegister ==> w[x] == v[x] / 2)
      && forall j :: 0 <= j < RegisterCount && j != x && j != FlagRegister ==> w[j] == v[j]
    ensures var v, w := s.registers, Exec(s, ShiftLeft(x), rnd).state.registers;
      && w[FlagRegister] == v[x] / 0x80
      && (x != FlagRegister ==> w[x] == (2 * v[x] as int) % 0x100)
      && forall j :: 0 <= j < RegisterCount && j != x && j != FlagRegister ==> w[j] == v[j]
  {
  }

  /** Every arithmetic opcode moves the counter by 2. */
  lemma ArithmeticAdvances(s: State, i: Instr, rnd: u8)
    requires s.Valid() && s.programCounter + 1 < MemorySize
    requires i.LoadImm? || i.AddImm? || i.Move? || i.Or? || i.And? || i.Xor? || i.AddReg? || i.SubReg?
      || i.ShiftRight? || i.SubRev? || i.ShiftLeft? || i.Random?
    ensures Exec(s, i, rnd).Ok?
    ensures Exec(s, i, rnd).state == s.(programCounter := s.programCounter + 2,
                                         registers := Exec(s, i, rnd).state.registers)
  {
  }

  /** 7XNN wraps around. */
  lemma AddImmediateWraps(s: State, x: Nibble, nn: u8, rnd: u8)
    requires s.Valid() && s.programCounter + 1 < MemorySize
    ensures Exec(s, AddImm(x, nn), rnd).Ok?
    ensures Exec(s, AddImm(x, nn), rnd).state.registers[x] == (s.registers[x] as int + nn) % 0x100
  {
  }

  /** CXNN: VX is the random byte masked with NN; nothing else but the counter changes. */
  lemma RandomMasked(s: State, x: Nibble, nn: u8, rnd: u8)
    requires s.Valid() && s.programCounter + 1 < MemorySize
    ensures Exec(s, Random(x, nn), rnd)
      == Ok(s.(registers := s.registers[x := BitAnd(rnd, nn)], programCounter := s.programCounter + 2))
  {
  }

  /** BNNN sets the index register to NNN plus V0; it does not jump. */
  lemma IndexOffset(s: State, nnn: Addr, rnd: u8)
    requires s.Valid() && s.programCounter + 1 < MemorySize
    ensures Exec(s, SetIndexOffset(nnn), rnd)
      == Ok(s.(indexRegister := nnn + s.registers[0], programCounter := s.programCounter + 2))
  {
  }

  /** FX55 followed by FX65 with the same index and X restores registers 0..=X (X + 1 of
      them) from what was stored, whatever happened to the registers in between, and
      leaves the registers above X as they are at the time of the load. */
  lemma StoreThenLoad(s: State, u: State, x: Nibble, rnd: u8)
    requires s.Valid() && s.programCounter + 1 < MemorySize && s.indexRegister + x < MemorySize
    requires u.Valid() && u.programCounter + 1 < MemorySize && u.indexRegister == s.indexRegister
    requires u.memory == Exec(s, StoreRegs(x), rnd).state.memory
    ensures Exec(u, LoadRegs(x), rnd).Ok?
    ensures Exec(u, LoadRegs(x), rnd).state.registers == s.registers[..x + 1] + u.registers[x + 1..]
  {
    assert Exec(s, StoreRegs(x), rnd).state.memory == StoreRegisters(s.memory, s.registers, s.indexRegister, x);
    assert Exec(u, LoadRegs(x), rnd).state.registers == LoadRegisters(u.registers, u.memory, u.indexRegister, x);
    StoreLoadRoundTrip(s.memory, s.registers, u.registers, s.indexRegister, x);
  }

  /** FX55 and FX65 need all of I..=I+X in memory. */
  lemma BulkTransferFaults(s: State, x: Nibble, rnd: u8)
    requires s.Valid() && s.programCounter + 1 < MemorySize
    ensures Exec(s, StoreRegs(x), rnd).Panic? <==> s.indexRegister + x >= MemorySize
    ensures Exec(s, LoadRegs(x), rnd).Panic? <==> s.indexRegister + x >= MemorySize
  {
  }

  /** FX33: hundreds, tens and units of VX at I, I + 1 and I + 2, and no other byte. */
  lemma DecimalDigits(s: State, x: Nibble, rnd: u8)
    requires s.Valid() && s.programCounter + 1 < MemorySize && s.indexRegister + 2 < MemorySize
    ensures Exec(s, StoreDecimal(x), rnd).Ok?
    ensures var m, i, v := Exec(s, StoreDecimal(x), rnd).state.memory, s.indexRegister, s.registers[x];
      && m[i] == v / 100 && m[i + 1] == (v / 10) % 10 && m[i + 2] == v % 10
      && forall a :: 0 <= a < MemorySize && (a < i || a > i + 2) ==> m[a] == s.memory[a]
  {
    var m, i, v := Exec(s, StoreDecimal(x), rnd).state.memory, s.indexRegister, s.registers[x];
    assert 100 * (m[i] as int) + 10 * (m[i + 1] as int) + m[i + 2] as int == v;
  }

  /** FX29: the glyph of digit VX, five bytes per glyph; a register above 15 panics. */
  lemma FontAddress(s: State, x: Nibble, rnd: u8)
    requires s.Valid() && s.programCounter + 1 < MemorySize
    ensures s.registers[x] > 0xF <==> Exec(s, FontAddr(x), rnd) == Panic(InvalidSprite(s.registers[x]))
    ensures s.registers[x] <= 0xF ==> Exec(s, FontAddr(x), rnd).state.indexRegister == 5 * s.registers[x]
  {
  }

  /** FX1E adds VX to the index register; it panics instead of passing 0xFFFF. */
  lemma AddToIndex(s: State, x: Nibble, rnd: u8)
    requires s.Valid() && s.programCounter + 1 < MemorySize
    ensures Exec(s, AddIndex(x), rnd).Ok? <==> s.indexRegister + s.registers[x] <= 0xFFFF
    ensures Exec(s, AddIndex(x), rnd).Ok? ==>
      Exec(s, AddIndex(x), rnd).state.indexRegister == s.indexRegister + s.registers[x]
  {
  }

  /** DXYN toggles exactly the pixels under set sprite bits, with VF = 1 exactly when a
      pixel went from 1 to 0; VF is the only register it changes. */
  lemma DrawSprite(s: State, x: Nibble, y: Nibble, n: Nibble, rnd: u8)
    requires s.Valid() && s.programCounter + 1 < MemorySize
    requires Sprite.Readable(s.memory, s.indexRegister, n, s.registers[x], s.registers[y])
    ensures Exec(s, Draw(x, y, n), rnd).Ok?
    ensures var t := Exec(s, Draw(x, y, n), rnd).state;
      && (forall r, c :: 0 <= r < ScreenHeight && 0 <= c < ScreenWidth ==>
            Pixel(t.screen, r, c)
              == if Sprite.Lit(s.memory, s.indexRegister, n, s.registers[x], s.registers[y], r, c)
                 then Sprite.Toggle(Pixel(s.screen, r, c)) else Pixel(s.screen, r, c))
      && (t.registers[FlagRegister] == 1 <==>
            exists r, c :: 0 <= r < ScreenHeight && 0 <= c < ScreenWidth
              && Pixel(s.screen, r, c) == 1 && Pixel(t.screen, r, c) == 0)
      && t.registers == s.registers[FlagRegister := t.registers[FlagRegister]]
      && t.registers[FlagRegister] < 2
      && t.programCounter == s.programCounter + 2 && t.indexRegister == s.indexRegister
  {
    Sprite.DrawEffect(s.screen, s.memory, s.indexRegister, n, s.registers[x], s.registers[y]);
    Sprite.CollisionIffPixelErased(s.screen, s.memory, s.indexRegister, n, s.registers[x], s.registers[y]);
  }

  /** Drawing the same sprite twice in a row restores the screen, as long as neither
      coordinate register is VF, which the first draw overwrites. */
  lemma DrawTwice(s: State, x: Nibble, y: Nibble, n: Nibble, rnd: u8)
    requires s.Valid() && s.programCounter + 3 < MemorySize && x != FlagRegister && y != FlagRegister
    requires Sprite.Readable(s.memory, s.indexRegister, n, s.registers[x], s.registers[y])
    ensures Exec(s, Draw(x, y, n), rnd).Ok?
    ensures var t := Exec(s, Draw(x, y, n), rnd).state;
      Exec(t, Draw(x, y, n), rnd).Ok? && Exec(t, Draw(x, y, n), rnd).state.screen == s.screen
  {
    Sprite.DrawTwiceRestores(s.screen, s.memory, s.indexRegister, n, s.registers[x], s.registers[y]);
  }

  /** FX0A sets the wait and clears every key without moving the counter; while waiting a
      step does nothing, and `complete_fx0a` stores the key in VX and moves on. */
  lemma WaitThenComplete(s: State, x: Nibble, key: u8, rnd: u8, rnd2: u8)
    requires s.Valid() && !s.blockedOnKeyPress && s.programCounter + 1 < MemorySize
    requires FetchOpcode(s.memory, s.programCounter) == Some(Encode(WaitKey(x)))
    ensures Step(s, rnd).Ok?
    ensures var t := Step(s, rnd).state;
      && t == s.(blockedOnKeyPress := true, keyState := NoKeys())
      && Step(t, rnd2) == Ok(t)
      && CompleteFx0a(t, key)
         == Ok(s.(registers := s.registers[x := key], keyState := NoKeys(),
                  programCounter := s.programCounter + 2))
  {
    DecodeEncode(WaitKey(x));
    var op := Encode(WaitKey(x));
    AssembleFields(0xF, x, 0x0, 0xA);
    assert RegisterX(op) == x;
  }

  /** The program 6005 7003 at 0x200: two steps set V0 to 5 and then add 3, ending with
      V0 = 8 and the counter at 0x204, and nothing else changed. */
  lemma AddProgram(s: State, rnd: u8)
    requires s.Valid() && !s.blockedOnKeyPress && s.programCounter == 0x200
    requires s.memory[0x200..0x204] == [0x60, 0x05, 0x70, 0x03]
    ensures Run(s, [rnd, rnd]).Ok?
    ensures Run(s, [rnd, rnd]).state == s.(registers := s.registers[0 := 8], programCounter := 0x204)
  {
    assert s.memory[0x200] == 0x60 && s.memory[0x201] == 0x05;
    assert s.memory[0x202] == 0x70 && s.memory[0x203] == 0x03;
    assert FetchOpcode(s.memory, 0x200) == Some(0x6005);
    assert Decode(0x6005) == Some(LoadImm(0, 5));
    var t := s.(registers := s.registers[0 := 5], programCounter := 0x202);
    assert Step(s, rnd) == Ok(t);
    assert FetchOpcode(t.memory, 0x202) == Some(0x7003);
    assert Decode(0x7003) == Some(AddImm(0, 3));
    var u := t.(registers := t.registers[0 := 8], programCounter := 0x204);
    assert Step(t, rnd) == Ok(u);
    assert [rnd, rnd][1..] == [rnd];
    assert Run(t, [rnd]) == Run(u, []);
  }

  /** The same program loaded into a new machine. */
  lemma LoadAndAdd(rnd: u8)
    ensures var s := Initial().(memory := LoadedMemory(Initial().memory, [0x60, 0x05, 0x70, 0x03]));
      Run(s, [rnd, rnd]).Ok? && Run(s, [rnd, rnd]).state.registers[0] == 8
      && Run(s, [rnd, rnd]).state.programCounter == 0x204
  {
    var rom: seq<u8> := [0x60, 0x05, 0x70, 0x03];
    var s := Initial().(memory := LoadedMemory(Initial().memory, rom));
    assert s.memory[0x200..0x204] == rom;
    AddProgram(s, rnd);
  }
}
