/** The current engine's `VirtualMachine` as a class whose methods update its arrays and
    fields in place. Every method is proved to leave the machine in the state the
    functions of `Chip8` compute from the state before the call. */
module Chip8Vm {
  import opened Word
  import opened MachineState
  import Sprite
  import Chip8

  class VirtualMachine {
    const memory: array<u8>
    const registers: array<u8>
    const stack: array<u16>
    var stackPointer: u8
    const screen: array<u8>
    var indexRegister: u16
    var programCounter: u16
    var delayTimer: u8
    var soundTimer: u8
    /** Public in the engine: the frontend writes the key flags directly. */
    const keyState: array<bool>
    /** Public in the engine as well. */
    var blockedOnKeyPress: bool

    /** The machine as a `State` value. */
    ghost function Snapshot(): State
      reads this, memory, registers, stack, screen, keyState
    {
      State(memory[..], registers[..], stack[..], stackPointer, screen[..], indexRegister, programCounter,
            delayTimer, soundTimer, keyState[..], blockedOnKeyPress)
    }

    /** The three byte arrays are distinct and the state is well formed. */
    ghost predicate Valid()
      reads this, memory, registers, stack, screen, keyState
    {
      memory != registers && memory != screen && registers != screen && Snapshot().Valid()
    }

    /** `new`: everything zero except the counter, which starts at the program area. */
    constructor ()
      ensures Valid() && Snapshot() == Initial()
      ensures fresh(memory) && fresh(registers) && fresh(stack) && fresh(screen) && fresh(keyState)
    {
      memory := new u8[MemorySize](_ => 0);
      registers := new u8[RegisterCount](_ => 0);
      stack := new u16[StackSize](_ => 0);
      stackPointer := 0;
      screen := new u8[ScreenSize](_ => 0);
      indexRegister := 0;
      programCounter := ProgramStart;
      delayTimer := 0;
      soundTimer := 0;
      keyState := new bool[KeyCount](_ => false);
      blockedOnKeyPress := false;
      new;
      assert memory[..] == seq(MemorySize, _ => 0);
      assert registers[..] == seq(RegisterCount, _ => 0);
      assert stack[..] == seq(StackSize, _ => 0);
      assert screen[..] == Blank();
      assert keyState[..] == NoKeys();
    }

    /** `load_rom`: the program is copied byte by byte to 0x200 on, as far as it fits. */
    method LoadRom(rom: seq<u8>)
      requires Valid()
      modifies memory
      ensures Valid() && Snapshot() == old(Snapshot()).(memory := LoadedMemory(old(memory[..]), rom))
    {
      var i := 0;
      while i < |rom| && ProgramStart + i < memory.Length
        invariant 0 <= i <= |rom| && ProgramStart + i <= memory.Length
        invariant forall a :: 0 <= a < memory.Length ==>
          memory[a] == if ProgramStart <= a < ProgramStart + i then rom[a - ProgramStart] else old(memory[a])
      {
        memory[ProgramStart + i] := rom[i];
        i := i + 1;
      }
      assert memory[..] == LoadedMemory(old(memory[..]), rom);
    }

    /** `fetch_opcode`: the big-endian word at the counter, if both bytes are in memory. */
    function FetchOpcode(): (r: Option<u16>)
      reads this, memory
      requires memory.Length == MemorySize
      ensures r.Some? <==> programCounter + 1 < MemorySize
      ensures r.Some? ==> r.value == (memory[programCounter] as int) * 0x100 + memory[programCounter + 1]
    {
      MachineState.FetchOpcode(memory[..], programCounter)
    }

    /** `execute_instruction`. */
    method ExecuteInstruction(rnd: u8) returns (fault: Option<Fault>)
      requires Valid()
      modifies this, memory, registers, stack, screen, keyState
      ensures Valid() && Reflects(Chip8.Step(old(Snapshot()), rnd), old(Snapshot()), Snapshot(), fault)
    {
      if blockedOnKeyPress {
        return None;
      }
      var op := FetchOpcode();
      match op
      case None =>
        fault := Some(MemoryOutOfRange);
      case Some(opcode) =>
        fault := ExecuteOpcode(opcode, rnd);
    }

    /** `execute_opcode`. */
    method ExecuteOpcode(op: u16, rnd: u8) returns (fault: Option<Fault>)
      requires Valid() && programCounter + 1 < MemorySize
      modifies this, memory, registers, stack, screen, keyState
      ensures Valid() && Reflects(Chip8.ExecuteOpcode(old(Snapshot()), op, rnd), old(Snapshot()), Snapshot(), fault)
    {
      match Chip8.Decode(op)
      case None =>
        fault := Some(UnknownOpcode(op));
      case Some(i) =>
        fault := Execute(i, rnd);
    }

    /** One decoded instruction. */
    method Execute(i: Chip8.Instr, rnd: u8) returns (fault: Option<Fault>)
      requires Valid() && programCounter + 1 < MemorySize
      modifies this, memory, registers, stack, screen, keyState
      ensures Valid() && Reflects(Chip8.Exec(old(Snapshot()), i, rnd), old(Snapshot()), Snapshot(), fault)
    {
      if Chip8.IsFlow(i) {
        fault := ExecuteFlow(i);
      } else if Chip8.IsArithmetic(i) {
        ExecuteArithmetic(i, rnd);
        fault := None;
      } else {
        fault := ExecuteDevices(i);
      }
    }

    /** Advances the counter by 4 if `taken`, by 2 otherwise. */
    method SkipIf(taken: bool)
      requires programCounter + 4 < 0x1_0000
      modifies this`programCounter
      ensures programCounter == old(programCounter) + if taken then 4 else 2
    {
      if taken {
        programCounter := programCounter + 4;
      } else {
        programCounter := programCounter + 2;
      }
    }

    /** The 0, 1 and 2 families and the skips. */
    method ExecuteFlow(i: Chip8.Instr) returns (fault: Option<Fault>)
      requires Valid() && programCounter + 1 < MemorySize && Chip8.IsFlow(i)
      modifies this, stack, screen
      ensures Valid() && Reflects(Chip8.ExecFlow(old(Snapshot()), i), old(Snapshot()), Snapshot(), fault)
    {
      if i.ClearScreen? || i.Return? || i.Jump? || i.Call? {
        fault := ExecuteControl(i);
      } else {
        fault := ExecuteSkip(i);
      }
    }

    /** 00E0, 00EE, 1NNN and 2NNN. */
    method ExecuteControl(i: Chip8.Instr) returns (fault: Option<Fault>)
      requires Valid() && programCounter + 1 < MemorySize && (i.ClearScreen? || i.Return? || i.Jump? || i.Call?)
      modifies this, stack, screen
      ensures Valid() && Reflects(Chip8.ExecFlow(old(Snapshot()), i), old(Snapshot()), Snapshot(), fault)
    {
      fault := None;
      if i.ClearScreen? {
        ClearScreen();
        programCounter := programCounter + 2;
      } else if i.Return? {
        if stackPointer == 0 {
          fault := Some(StackUnderflow);
        } else {
          programCounter := stack[stackPointer - 1];
          stackPointer := stackPointer - 1;
          programCounter := programCounter + 2;
        }
      } else if i.Jump? {
        programCounter := i.nnn;
      } else {
        if stackPointer as int >= StackSize {
          fault := Some(StackOverflow);
        } else {
          stack[stackPointer] := programCounter;
          stackPointer := stackPointer + 1;
          programCounter := i.nnn;
        }
      }
    }

    /** 3XNN, 4XNN, 5XY0, 9XY0, EX9E and EXA1. */
    method ExecuteSkip(i: Chip8.Instr) returns (fault: Option<Fault>)
      requires Valid() && programCounter + 1 < MemorySize && Chip8.IsFlow(i)
      requires !(i.ClearScreen? || i.Return? || i.Jump? || i.Call?)
      modifies this`programCounter
      ensures Valid() && Reflects(Chip8.ExecFlow(old(Snapshot()), i), old(Snapshot()), Snapshot(), fault)
    {
      fault := None;
      if i.SkipEqImm? {
        SkipIf(registers[i.x] == i.nn);
      } else if i.SkipNeImm? {
        SkipIf(registers[i.x] != i.nn);
      } else if i.SkipEqReg? {
        SkipIf(registers[i.x] == registers[i.y]);
      } else if i.SkipNeReg? {
        SkipIf(registers[i.x] != registers[i.y]);
      } else {
        var vx := registers[i.x];
        if vx >= KeyCount {
          fault := Some(InvalidKey(vx));
        } else if i.SkipKey? {
          SkipIf(keyState[vx]);
        } else {
          SkipIf(!keyState[vx]);
        }
      }
    }

    /** 00E0: every pixel off. */
    method ClearScreen()
      modifies screen
      ensures screen.Length == ScreenSize ==> screen[..] == Blank()
      ensures forall p :: 0 <= p < screen.Length ==> screen[p] == 0
    {
      forall p | 0 <= p < screen.Length {
        screen[p] := 0;
      }
    }

    /** 6XNN, 7XNN, the 8 family and CXNN. */
    method ExecuteArithmetic(i: Chip8.Instr, rnd: u8)
      requires Valid() && programCounter + 1 < MemorySize && Chip8.IsArithmetic(i)
      modifies this, registers
      ensures Valid()
      ensures Snapshot() == Chip8.ExecArithmetic(old(Snapshot()), i, rnd)
    {
      if i.AddReg? || i.SubReg? || i.ShiftRight? || i.SubRev? || i.ShiftLeft? {
        ExecuteFlagged(i);
      } else {
        ExecuteUnflagged(i, rnd);
      }
      programCounter := programCounter + 2;
    }

    /** 6XNN, 7XNN, 8XY0 to 8XY3 and CXNN: VX alone changes. */
    method ExecuteUnflagged(i: Chip8.Instr, rnd: u8)
      requires registers.Length == RegisterCount && Chip8.IsArithmetic(i)
      requires !(i.AddReg? || i.SubReg? || i.ShiftRight? || i.SubRev? || i.ShiftLeft?)
      modifies registers
      ensures registers[..] == Chip8.Arithmetic(old(registers[..]), i, rnd)
    {
      match i {
        case LoadImm(x, nn) =>
          registers[x] := nn;
        case AddImm(x, nn) =>
          var vx := registers[x];
          registers[x] := WrappingAdd(vx, nn);
        case Move(x, y) =>
          registers[x] := registers[y];
        case Or(x, y) =>
          var vx := registers[x];
          registers[x] := BitOr(vx, registers[y]);
        case And(x, y) =>
          var vx := registers[x];
          registers[x] := BitAnd(vx, registers[y]);
        case Xor(x, y) =>
          var vx := registers[x];
          registers[x] := BitXor(vx, registers[y]);
        case Random(x, nn) =>
          registers[x] := BitAnd(rnd, nn);
      }
    }

    /** 8XY4 to 8XYE: VX and the flag register VF change. */
    method ExecuteFlagged(i: Chip8.Instr)
      requires registers.Length == RegisterCount
      requires i.AddReg? || i.SubReg? || i.ShiftRight? || i.SubRev? || i.ShiftLeft?
      modifies registers
      ensures registers[..] == Chip8.Arithmetic(old(registers[..]), i, 0)
    {
      match i {
        case AddReg(x, y) =>
          var vx, vy := registers[x], registers[y];
          var sum := OverflowingAdd(vx, vy);
          registers[FlagRegister] := if sum.1 then 1 else 0;
          registers[x] := sum.0;
        case SubReg(x, y) =>
          var vx, vy := registers[x], registers[y];
          registers[FlagRegister] := if vx > vy then 1 else 0;
          registers[x] := WrappingSub(vx, vy);
        case ShiftRight(x) =>
          var vx := registers[x];
          var shifted := ShiftRightOut(vx);
          registers[x] := shifted.0;
          registers[FlagRegister] := shifted.1;
        case SubRev(x, y) =>
          var vx, vy := registers[x], registers[y];
          registers[FlagRegister] := if vy > vx then 1 else 0;
          registers[x] := WrappingSub(vy, vx);
        case ShiftLeft(x) =>
          var vx := registers[x];
          var shifted := ShiftLeftOut(vx);
          registers[x] := shifted.0;
          registers[FlagRegister] := shifted.1;
      }
    }

    /** The A to F families other than the skips. */
    method ExecuteDevices(i: Chip8.Instr) returns (fault: Option<Fault>)
      requires Valid() && programCounter + 1 < MemorySize && !Chip8.IsFlow(i) && !Chip8.IsArithmetic(i)
      modifies this, memory, registers, screen, keyState
      ensures Valid() && Reflects(Chip8.ExecDevices(old(Snapshot()), i), old(Snapshot()), Snapshot(), fault)
    {
      if i.Draw? {
        fault := Draw(i.x, i.y, i.n);
      } else if i.StoreRegs? || i.LoadRegs? || i.StoreDecimal? {
        fault := ExecuteMemory(i);
      } else {
        fault := ExecuteRegisterTransfer(i);
      }
    }

    /** ANNN, BNNN, FX07, FX0A, FX15, FX18, FX1E and FX29. */
    method ExecuteRegisterTransfer(i: Chip8.Instr) returns (fault: Option<Fault>)
      requires Valid() && programCounter + 1 < MemorySize
      requires i.SetIndex? || i.SetIndexOffset? || i.LoadDelay? || i.WaitKey? || i.SetDelay? || i.SetSound?
        || i.AddIndex? || i.FontAddr?
      modifies this, registers, keyState
      ensures Valid() && Reflects(Chip8.ExecDevices(old(Snapshot()), i), old(Snapshot()), Snapshot(), fault)
    {
      fault := None;
      match i
      case SetIndex(nnn) =>
        indexRegister := nnn;
        programCounter := programCounter + 2;
      case SetIndexOffset(nnn) =>
        indexRegister := nnn + registers[0];
        programCounter := programCounter + 2;
      case LoadDelay(x) =>
        registers[x] := delayTimer;
        programCounter := programCounter + 2;
      case WaitKey(_) =>
        blockedOnKeyPress := true;
        ClearKeyState();
      case SetDelay(x) =>
        delayTimer := registers[x];
        programCounter := programCounter + 2;
      case SetSound(x) =>
        soundTimer := registers[x];
        programCounter := programCounter + 2;
      case AddIndex(x) =>
        if indexRegister + registers[x] >= 0x1_0000 {
          fault := Some(IndexOverflow);
        } else {
          indexRegister := indexRegister + registers[x];
          programCounter := programCounter + 2;
        }
      case FontAddr(x) =>
        var vx := registers[x];
        if vx > 0xF {
          fault := Some(InvalidSprite(vx));
        } else {
          indexRegister := SpriteAddress(vx);
          programCounter := programCounter + 2;
        }
    }

    /** FX55, FX65 and FX33. */
    method ExecuteMemory(i: Chip8.Instr) returns (fault: Option<Fault>)
      requires Valid() && programCounter + 1 < MemorySize && (i.StoreRegs? || i.LoadRegs? || i.StoreDecimal?)
      modifies this, memory, registers
      ensures Valid() && Reflects(Chip8.ExecDevices(old(Snapshot()), i), old(Snapshot()), Snapshot(), fault)
    {
      var idx := indexRegister as nat;
      fault := None;
      match i
      case StoreRegs(x) =>
        if idx + x >= MemorySize {
          fault := Some(MemoryOutOfRange);
        } else {
          StoreRegistersInto(memory, registers, idx, x);
          programCounter := programCounter + 2;
        }
      case LoadRegs(x) =>
        if idx + x >= MemorySize {
          fault := Some(MemoryOutOfRange);
        } else {
          LoadRegistersFrom(registers, memory, idx, x);
          programCounter := programCounter + 2;
        }
      case StoreDecimal(x) =>
        if idx + 2 >= MemorySize {
          fault := Some(MemoryOutOfRange);
        } else {
          var val := registers[x];
          memory[idx] := val / 100;
          memory[idx + 1] := (val / 10) % 10;
          memory[idx + 2] := val % 10;
          programCounter := programCounter + 2;
        }
    }

    /** DXYN: VF is cleared, then every sprite row is drawn; a sprite byte outside
        memory panics before anything changes. */
    method Draw(x: Nibble, y: Nibble, n: Nibble) returns (fault: Option<Fault>)
      requires Valid() && programCounter + 1 < MemorySize
      modifies this, registers, screen
      ensures Valid() && Reflects(Chip8.ExecDevices(old(Snapshot()), Chip8.Draw(x, y, n)), old(Snapshot()), Snapshot(), fault)
    {
      var vx := registers[x];
      var vy := registers[y];
      var base := indexRegister as nat;
      if !Sprite.Readable(memory[..], base, n, vx, vy) {
        return Some(MemoryOutOfRange);
      }
      registers[FlagRegister] := 0;
      DrawSprite(base, n, vx, vy);
      assert registers[..] == old(registers[..])[FlagRegister := registers[FlagRegister]];
      programCounter := programCounter + 2;
      fault := None;
    }

    /** The arrays DXYN works on: a screen and a register file that are not memory. */
    ghost predicate DrawFrame()
      reads this
    {
      memory.Length == MemorySize && registers.Length == RegisterCount && screen.Length == ScreenSize
      && memory != registers && memory != screen && registers != screen
    }

    /** The row loop of DXYN: sprite row `sy` is the byte at `base + sy`, read before the
        loop stops at the bottom edge of an unwrapped sprite. */
    method DrawSprite(base: nat, n: Nibble, vx: u8, vy: u8)
      requires DrawFrame() && Sprite.Readable(memory[..], base, n, vx, vy) && registers[FlagRegister] < 2
      modifies registers, screen
      ensures registers[FlagRegister] < 2
      ensures forall j :: 0 <= j < RegisterCount && j != FlagRegister ==> registers[j] == old(registers[j])
      ensures (screen[..], registers[FlagRegister] == 1)
        == Sprite.DrawRows(old(screen[..]), memory[..], base, n, vx, vy, 0, old(registers[FlagRegister]) == 1)
    {
      ghost var goal := Sprite.DrawRows(screen[..], memory[..], base, n, vx, vy, 0, registers[FlagRegister] == 1);
      var wrap := vx >= ScreenWidth || vy >= ScreenHeight;
      var sy := 0;
      while sy < n
        invariant 0 <= sy <= n && (wrap || vy + sy <= ScreenHeight)
        invariant registers[FlagRegister] < 2
        invariant forall j :: 0 <= j < RegisterCount && j != FlagRegister ==> registers[j] == old(registers[j])
        invariant Sprite.DrawRows(screen[..], memory[..], base, n, vx, vy, sy, registers[FlagRegister] == 1) == goal
      {
        var stop := DrawSpriteRowAt(base, n, vx, vy, wrap, sy);
        if stop {
          break;
        }
        sy := sy + 1;
      }
    }

    /** One step of the row loop: it reads sprite row `sy`, and either stops at the
        bottom edge of an unwrapped sprite or draws that row on its screen row. */
    method DrawSpriteRowAt(base: nat, n: Nibble, vx: u8, vy: u8, wrap: bool, sy: nat) returns (stop: bool)
      requires DrawFrame() && Sprite.Readable(memory[..], base, n, vx, vy) && registers[FlagRegister] < 2
      requires wrap == Sprite.Wraps(vx, vy) && sy < n && (wrap || vy + sy <= ScreenHeight)
      modifies registers, screen
      ensures registers[FlagRegister] < 2
      ensures forall j :: 0 <= j < RegisterCount && j != FlagRegister ==> registers[j] == old(registers[j])
      ensures stop <==> !wrap && vy + sy == ScreenHeight
      ensures stop ==> screen[..] == old(screen[..]) && registers[FlagRegister] == old(registers[FlagRegister])
      ensures stop ==>
        Sprite.DrawRows(screen[..], memory[..], base, n, vx, vy, sy, registers[FlagRegister] == 1)
        == (screen[..], registers[FlagRegister] == 1)
      ensures !stop ==>
        Sprite.DrawRows(old(screen[..]), memory[..], base, n, vx, vy, sy, old(registers[FlagRegister]) == 1)
        == Sprite.DrawRows(screen[..], memory[..], base, n, vx, vy, sy + 1, registers[FlagRegister] == 1)
    {
      var b := memory[base + sy];
      var row := vy + sy;
      if wrap {
        row := row % ScreenHeight;
      } else if row >= ScreenHeight {
        return true;
      }
      ghost var drawn := Sprite.DrawRow(screen[..], b, row, vx, wrap, 0, registers[FlagRegister] == 1);
      assert Sprite.DrawRows(screen[..], memory[..], base, n, vx, vy, sy, registers[FlagRegister] == 1)
        == Sprite.DrawRows(drawn.0, memory[..], base, n, vx, vy, sy + 1, drawn.1);
      DrawSpriteRow(b, row, vx, wrap);
      assert memory[..] == old(memory[..]);
      stop := false;
    }

    /** The column loop of DXYN for sprite byte `b` on screen row `row`: each set bit,
        left to right, toggles its pixel, and a pixel going from 1 to 0 sets VF. */
    method DrawSpriteRow(b: u8, row: nat, vx: u8, wrap: bool)
      requires DrawFrame() && row < ScreenHeight && registers[FlagRegister] < 2
      modifies registers, screen
      ensures registers[FlagRegister] < 2
      ensures forall j :: 0 <= j < RegisterCount && j != FlagRegister ==> registers[j] == old(registers[j])
      ensures (screen[..], registers[FlagRegister] == 1)
        == Sprite.DrawRow(old(screen[..]), b, row, vx, wrap, 0, old(registers[FlagRegister]) == 1)
    {
      ghost var goal := Sprite.DrawRow(screen[..], b, row, vx, wrap, 0, registers[FlagRegister] == 1);
      var sx := 0;
      while sx < 8
        invariant 0 <= sx <= 8
        invariant registers[FlagRegister] < 2
        invariant forall j :: 0 <= j < RegisterCount && j != FlagRegister ==> registers[j] == old(registers[j])
        invariant Sprite.DrawRow(screen[..], b, row, vx, wrap, sx, registers[FlagRegister] == 1) == goal
      {
        var col := vx + sx;
        if wrap {
          col := col % ScreenWidth;
        } else if col >= ScreenWidth {
          break;
        }
        DrawSpritePixel(b, row, vx, wrap, sx, col);
        sx := sx + 1;
      }
    }

    /** One step of the column loop: sprite column `sx` lands on screen column `col`; if
        its bit is set the pixel toggles, and VF becomes 1 if the pixel goes from 1 to 0. */
    method DrawSpritePixel(b: u8, row: nat, vx: u8, wrap: bool, sx: nat, col: nat)
      requires DrawFrame() && row < ScreenHeight && sx < 8 && registers[FlagRegister] < 2
      requires col < ScreenWidth && col == if wrap then (vx + sx) % ScreenWidth else vx + sx
      modifies registers, screen
      ensures registers[FlagRegister] < 2
      ensures forall j :: 0 <= j < RegisterCount && j != FlagRegister ==> registers[j] == old(registers[j])
      ensures Sprite.DrawRow(old(screen[..]), b, row, vx, wrap, sx, old(registers[FlagRegister]) == 1)
        == Sprite.DrawRow(screen[..], b, row, vx, wrap, sx + 1, registers[FlagRegister] == 1)
    {
      var p := PixelIndex(row, col);
      var oldPixel := screen[p];
      if Sprite.SpriteBit(b, sx) {
        screen[p] := Sprite.Toggle(oldPixel);
        if oldPixel == 1 && screen[p] == 0 {
          registers[FlagRegister] := 1;
        }
        assert screen[..] == old(screen[..])[p := Sprite.Toggle(oldPixel)];
      }
    }

    /** `complete_fx0a`. */
    method CompleteFx0a(key: u8) returns (fault: Option<Fault>)
      requires Valid()
      modifies this, registers
      ensures Valid() && Reflects(Chip8.CompleteFx0a(old(Snapshot()), key), old(Snapshot()), Snapshot(), fault)
    {
      var op := FetchOpcode();
      match op
      case None =>
        fault := Some(MemoryOutOfRange);
      case Some(opcode) =>
        registers[RegisterX(opcode)] := key;
        blockedOnKeyPress := false;
        programCounter := programCounter + 2;
        fault := None;
    }

    /** `clear_key_state`: every key released. */
    method ClearKeyState()
      modifies keyState
      ensures forall k :: 0 <= k < keyState.Length ==> !keyState[k]
      ensures keyState.Length == KeyCount ==> keyState[..] == NoKeys()
    {
      forall k | 0 <= k < keyState.Length {
        keyState[k] := false;
      }
    }

    /** `decrement_timers`. */
    method DecrementTimers()
      requires Valid()
      modifies this`soundTimer, this`delayTimer
      ensures Valid() && Snapshot() == MachineState.DecrementTimers(old(Snapshot()))
    {
      soundTimer := SaturatingSub(soundTimer, 1);
      delayTimer := SaturatingSub(delayTimer, 1);
    }

    /** `screen_rows`: the screen cut into its 32 rows of 64 pixels. */
    method ScreenRows() returns (rows: seq<seq<u8>>)
      requires screen.Length == ScreenSize
      ensures rows == MachineState.ScreenRows(screen[..])
      ensures forall r, c :: 0 <= r < ScreenHeight && 0 <= c < ScreenWidth ==> rows[r][c] == screen[PixelIndex(r, c)]
    {
      rows := [];
      var r := 0;
      while r < ScreenHeight
        invariant 0 <= r <= ScreenHeight && |rows| == r
        invariant forall k :: 0 <= k < r ==> rows[k] == screen[k * ScreenWidth..(k + 1) * ScreenWidth]
      {
        rows := rows + [screen[r * ScreenWidth..(r + 1) * ScreenWidth]];
        r := r + 1;
      }
    }
  }
}
