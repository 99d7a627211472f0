/** The older engine's `VirtualMachine` as a class updating its arrays and fields in
    place. Every method is proved to leave the machine in the state the functions of
    `Legacy` compute from the state before the call. */
module LegacyVm {
  import opened Word
  import opened MachineState
  import Chip8
  import Legacy

  class VirtualMachine {
    const memory: array<u8>
    const registers: array<u8>
    const stack: array<u16>
    var stackPointer: u8
    const screen: array<u8>
    var indexRegister: u16
    var programCounter: u16
    var delayTimer: u8
    var soundTimer: u8
    /** Public in the engine: the frontend writes the key flags directly. */
    const keyState: array<bool>
    var blockedOnKeyPress: bool

    /** The machine as a `State` value. */
    ghost function Snapshot(): State
      reads this, memory, registers, stack, screen, keyState
    {
      State(memory[..], registers[..], stack[..], stackPointer, screen[..], indexRegister, programCounter,
            delayTimer, soundTimer, keyState[..], blockedOnKeyPress)
    }

    /** The three byte arrays are distinct and the state is well formed. */
    ghost predicate Valid()
      reads this, memory, registers, stack, screen, keyState
    {
      memory != registers && memory != screen && registers != screen && Snapshot().Valid()
    }

    /** `new`: everything zero except the counter, which starts at the program area. */
    constructor ()
      ensures Valid() && Snapshot() == Initial()
      ensures fresh(memory) && fresh(registers) && fresh(stack) && fresh(screen) && fresh(keyState)
    {
      memory := new u8[MemorySize](_ => 0);
      registers := new u8[RegisterCount](_ => 0);
      stack := new u16[StackSize](_ => 0);
      stackPointer := 0;
      screen := new u8[ScreenSize](_ => 0);
      indexRegister := 0;
      programCounter := ProgramStart;
      delayTimer := 0;
      soundTimer := 0;
      keyState := new bool[KeyCount](_ => false);
      blockedOnKeyPress := false;
      new;
      assert memory[..] == seq(MemorySize, _ => 0);
      assert registers[..] == seq(RegisterCount, _ => 0);
      assert stack[..] == seq(StackSize, _ => 0);
      assert screen[..] == Blank();
      assert keyState[..] == NoKeys();
    }

    /** `load_rom`: byte k to 0x200 + k for every byte of the program; a program longer
        than the program area indexes past memory and panics. */
    method LoadRom(rom: seq<u8>) returns (fault: Option<Fault>)
      requires Valid()
      modifies memory
      ensures Valid() && Reflects(Legacy.LoadRom(old(Snapshot()), rom), old(Snapshot()), Snapshot(), fault)
    {
      if |rom| > memory.Length - ProgramStart {
        return Some(MemoryOutOfRange);
      }
      var i := 0;
      while i < |rom|
        invariant 0 <= i <= |rom|
        invariant forall a :: 0 <= a < memory.Length ==>
          memory[a] == if ProgramStart <= a < ProgramStart + i then rom[a - ProgramStart] else old(memory[a])
      {
        memory[ProgramStart + i] := rom[i];
        i := i + 1;
      }
      assert memory[..] == LoadedMemory(old(memory[..]), rom);
      fault := None;
    }

    /** `fetch_opcode`: the big-endian word at the counter, if both bytes are in memory. */
    function FetchOpcode(): (r: Option<u16>)
      reads this, memory
      requires memory.Length == MemorySize
      ensures r.Some? <==> programCounter + 1 < MemorySize
      ensures r.Some? ==> r.value == (memory[programCounter] as int) * 0x100 + memory[programCounter + 1]
    {
      MachineState.FetchOpcode(memory[..], programCounter)
    }

    /** `run_cyle`: while waiting for a key nothing happens; otherwise one opcode runs and
        then both timers tick. */
    method RunCycle() returns (fault: Option<Fault>)
      requires Valid()
      modifies this, memory, registers, stack, screen
      ensures Valid() && Reflects(Legacy.RunCycle(old(Snapshot())), old(Snapshot()), Snapshot(), fault)
    {
      if blockedOnKeyPress {
        return None;
      }
      var op := FetchOpcode();
      match op
      case None =>
        fault := Some(MemoryOutOfRange);
      case Some(opcode) =>
        fault := ExecuteOpcode(opcode);
        if fault.None? {
          soundTimer := SaturatingSub(soundTimer, 1);
          delayTimer := SaturatingSub(delayTimer, 1);
        }
    }

    /** `execute_opcode`. */
    method ExecuteOpcode(op: u16) returns (fault: Option<Fault>)
      requires Valid() && programCounter + 1 < MemorySize
      modifies this, memory, registers, stack, screen
      ensures Valid() && Reflects(Legacy.ExecuteOpcode(old(Snapshot()), op), old(Snapshot()), Snapshot(), fault)
    {
      match Legacy.Decode(op)
      case None =>
        fault := Some(UnknownOpcode(op));
      case Some(i) =>
        if i.ClearScreen? || i.Return? || i.Jump? || i.Call? || i.SkipEqImm? || i.SkipNeImm? || i.SkipEqReg? {
          fault := ExecuteFlow(i);
        } else if i.StoreRegs? || i.LoadRegs? || i.StoreDecimal? {
          fault := ExecuteMemory(i);
        } else if i.LoadImm? || i.AddImm? || i.LoadDelay? || i.WaitKey? {
          fault := ExecuteRegisters(i);
        } else if i.SetDelay? || i.SetSound? {
          fault := ExecuteTimers(i);
        } else {
          fault := ExecuteIndex(i);
        }
    }

    /** Advances the counter by 4 if `taken`, by 2 otherwise. */
    method SkipIf(taken: bool)
      requires programCounter + 4 < 0x1_0000
      modifies this`programCounter
      ensures programCounter == old(programCounter) + if taken then 4 else 2
    {
      if taken {
        programCounter := programCounter + 4;
      } else {
        programCounter := programCounter + 2;
      }
    }

    /** 00E0, 00EE, 1NNN, 2NNN, 3XNN, 4XNN and 5XY0. */
    method ExecuteFlow(i: Chip8.Instr) returns (fault: Option<Fault>)
      requires Valid() && programCounter + 1 < MemorySize
      requires i.ClearScreen? || i.Return? || i.Jump? || i.Call? || i.SkipEqImm? || i.SkipNeImm? || i.SkipEqReg?
      modifies this, stack, screen
      ensures Valid() && Reflects(Legacy.Exec(old(Snapshot()), i), old(Snapshot()), Snapshot(), fault)
    {
      if i.ClearScreen? || i.Return? || i.Jump? || i.Call? {
        fault := ExecuteControl(i);
      } else {
        fault := None;
        assert Legacy.Exec(Snapshot(), i) == Chip8.ExecFlow(Snapshot(), i);
        if i.SkipEqImm? {
          SkipIf(registers[i.x] == i.nn);
        } else if i.SkipNeImm? {
          SkipIf(registers[i.x] != i.nn);
        } else {
          SkipIf(registers[i.x] == registers[i.y]);
        }
      }
    }

    /** 00E0, 00EE, 1NNN and 2NNN. */
    method ExecuteControl(i: Chip8.Instr) returns (fault: Option<Fault>)
      requires Valid() && programCounter + 1 < MemorySize && (i.ClearScreen? || i.Return? || i.Jump? || i.Call?)
      modifies this, stack, screen
      ensures Valid() && Reflects(Legacy.Exec(old(Snapshot()), i), old(Snapshot()), Snapshot(), fault)
    {
      assert Legacy.Exec(Snapshot(), i) == Chip8.ExecFlow(Snapshot(), i);
      fault := None;
      if i.ClearScreen? {
        forall p | 0 <= p < screen.Length {
          screen[p] := 0;
        }
        assert screen[..] == Blank();
        programCounter := programCounter + 2;
      } else if i.Return? {
        if stackPointer == 0 {
          fault := Some(StackUnderflow);
        } else {
          programCounter := stack[stackPointer - 1];
          stackPointer := stackPointer - 1;
          programCounter := programCounter + 2;
        }
      } else if i.Jump? {
        programCounter := i.nnn;
      } else {
        if stackPointer as int >= StackSize {
          fault := Some(StackOverflow);
        } else {
          stack[stackPointer] := programCounter;
          stackPointer := stackPointer + 1;
          programCounter := i.nnn;
        }
      }
    }

    /** 6XNN, 7XNN, FX07 and FX0A. */
    method ExecuteRegisters(i: Chip8.Instr) returns (fault: Option<Fault>)
      requires Valid() && programCounter + 1 < MemorySize && (i.LoadImm? || i.AddImm? || i.LoadDelay? || i.WaitKey?)
      modifies this, registers
      ensures Valid() && Reflects(Legacy.Exec(old(Snapshot()), i), old(Snapshot()), Snapshot(), fault)
    {
      fault := None;
      if i.LoadDelay? {
        assert Legacy.Exec(Snapshot(), i) == Chip8.ExecDevices(Snapshot(), i);
      }
      if i.LoadImm? {
        registers[i.x] := i.nn;
        programCounter := programCounter + 2;
      } else if i.AddImm? {
        var vx := registers[i.x];
        registers[i.x] := SaturatingAdd(vx, i.nn);
        programCounter := programCounter + 2;
      } else if i.LoadDelay? {
        registers[i.x] := delayTimer;
        programCounter := programCounter + 2;
      } else {
        blockedOnKeyPress := true;
      }
    }

    /** FX15 and FX18. */
    method ExecuteTimers(i: Chip8.Instr) returns (fault: Option<Fault>)
      requires Valid() && programCounter + 1 < MemorySize && (i.SetDelay? || i.SetSound?)
      modifies this
      ensures Valid() && Reflects(Legacy.Exec(old(Snapshot()), i), old(Snapshot()), Snapshot(), fault)
    {
      assert Legacy.Exec(Snapshot(), i) == Chip8.ExecDevices(Snapshot(), i);
      fault := None;
      if i.SetDelay? {
        delayTimer := registers[i.x];
      } else {
        soundTimer := registers[i.x];
      }
      programCounter := programCounter + 2;
    }

    /** FX1E and FX29. */
    method ExecuteIndex(i: Chip8.Instr) returns (fault: Option<Fault>)
      requires Valid() && programCounter + 1 < MemorySize && (i.AddIndex? || i.FontAddr?)
      modifies this
      ensures Valid() && Reflects(Legacy.Exec(old(Snapshot()), i), old(Snapshot()), Snapshot(), fault)
    {
      assert Legacy.Exec(Snapshot(), i) == Chip8.ExecDevices(Snapshot(), i);
      fault := None;
      var vx := registers[i.x];
      if i.AddIndex? {
        if indexRegister + vx >= 0x1_0000 {
          fault := Some(IndexOverflow);
        } else {
          indexRegister := indexRegister + vx;
          programCounter := programCounter + 2;
        }
      } else {
        if vx > 0xF {
          fault := Some(InvalidSprite(vx));
        } else {
          indexRegister := SpriteAddress(vx);
          programCounter := programCounter + 2;
        }
      }
    }

    /** FX55, FX65 and FX33 as written. */
    method ExecuteMemory(i: Chip8.Instr) returns (fault: Option<Fault>)
      requires Valid() && programCounter + 1 < MemorySize && (i.StoreRegs? || i.LoadRegs? || i.StoreDecimal?)
      modifies this, memory, registers
      ensures Valid() && Reflects(Legacy.Exec(old(Snapshot()), i), old(Snapshot()), Snapshot(), fault)
    {
      if i.StoreDecimal? {
        fault := ExecuteStoreDecimal(i.x);
        return;
      }
      assert Legacy.Exec(Snapshot(), i) == Chip8.ExecDevices(Snapshot(), i);
      var idx := indexRegister as nat;
      fault := None;
      if idx + i.x >= MemorySize {
        fault := Some(MemoryOutOfRange);
      } else if i.StoreRegs? {
        StoreRegistersInto(memory, registers, idx, i.x);
        programCounter := programCounter + 2;
      } else {
        LoadRegistersFrom(registers, memory, idx, i.x);
        programCounter := programCounter + 2;
      }
    }

    /** FX33 as written: the hundreds digit is overwritten by the tens digit, and the
        byte at I + 1 keeps its old value. */
    method ExecuteStoreDecimal(x: Nibble) returns (fault: Option<Fault>)
      requires Valid() && programCounter + 1 < MemorySize
      modifies this, memory
      ensures Valid() && Reflects(Legacy.Exec(old(Snapshot()), Chip8.StoreDecimal(x)), old(Snapshot()), Snapshot(), fault)
    {
      var idx := indexRegister as nat;
      if idx + 2 >= MemorySize {
        return Some(MemoryOutOfRange);
      }
      var val := registers[x];
      memory[idx] := val / 100;
      memory[idx] := (val / 10) % 10;
      memory[idx + 2] := val % 10;
      programCounter := programCounter + 2;
      fault := None;
    }

    /** `complete_fx0a`, the same as in the current engine. */
    method CompleteFx0a(key: u8) returns (fault: Option<Fault>)
      requires Valid()
      modifies this, registers
      ensures Valid() && Reflects(Chip8.CompleteFx0a(old(Snapshot()), key), old(Snapshot()), Snapshot(), fault)
    {
      var op := FetchOpcode();
      match op
      case None =>
        fault := Some(MemoryOutOfRange);
      case Some(opcode) =>
        registers[RegisterX(opcode)] := key;
        blockedOnKeyPress := false;
        programCounter := programCounter + 2;
        fault := None;
    }
  }
}
