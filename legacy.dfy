/** The older engine as functions on `State`. It knows only the 0, 1 to 7 and F
    families, and it differs from the current engine in four places: 7XNN saturates,
    FX0A leaves the keys alone, FX33 writes the tens digit over the hundreds digit, and
    one cycle also ticks both timers. The instructions it shares with the current engine
    behave exactly as there, so they are given by `Chip8.Exec`. */
module Legacy {
  import opened Word
  import opened MachineState
  import Chip8

  /** The instructions of the families the legacy dispatch has arms for. */
  predicate Supported(i: Chip8.Instr)
  {
    || i.ClearScreen? || i.Return? || i.Jump? || i.Call?
    || i.SkipEqImm? || i.SkipNeImm? || i.SkipEqReg? || i.LoadImm? || i.AddImm?
    || i.LoadDelay? || i.WaitKey? || i.SetDelay? || i.StoreRegs? || i.LoadRegs?
    || i.SetSound? || i.AddIndex? || i.FontAddr? || i.StoreDecimal?
  }

  /** The legacy `execute_opcode` dispatch: families 8 to E fall through to the
      "Unknown opcode" arm; the 0, 1 to 7 and F arms look at the same digits as in the
      current engine. */
  function Decode(op: u16): (r: Option<Chip8.Instr>)
    ensures r.Some? ==> Supported(r.value)
    ensures 0x8 <= Family(op) <= 0xE ==> r.None?
    ensures r.Some? ==> Chip8.Decode(op) == r
    ensures !(0x8 <= Family(op) <= 0xE) ==> r == Chip8.Decode(op)
  {
    if 0x8 <= Family(op) <= 0xE then None else Chip8.Decode(op)
  }

  /** Every supported instruction is decoded back from its canonical opcode. */
  lemma DecodeEncode(i: Chip8.Instr)
    requires Supported(i)
    ensures Decode(Chip8.Encode(i)) == Some(i)
  {
    Chip8.DecodeEncode(i);
  }

  /** An opcode of families 8 to E that the current engine does execute is an unknown
      opcode here. */
  lemma UndecodableFamilies(s: State, f: Nibble, x: Nibble, y: Nibble, n: Nibble)
    requires s.Valid() && s.programCounter + 1 < MemorySize && 0x8 <= f <= 0xE
    ensures ExecuteOpcode(s, Assemble(f, x, y, n)) == Panic(UnknownOpcode(Assemble(f, x, y, n)))
    ensures f == 0x9 || f == 0xA || f == 0xB || f == 0xC || f == 0xD ==> Chip8.Decode(Assemble(f, x, y, n)).Some?
  {
    AssembleFields(f, x, y, n);
  }

  /** FX33 as written in the legacy engine: the tens digit is stored at I, where it
      replaces the hundreds digit, I + 1 is not written, and the units digit goes to
      I + 2. */
  function StoreBcdAsWritten(memory: seq<u8>, i: nat, v: u8): (m: seq<u8>)
    requires i + 2 < |memory|
    ensures |m| == |memory|
    ensures m[i] == (v / 10) % 10 && m[i + 1] == memory[i + 1] && m[i + 2] == v % 10
    ensures forall a :: 0 <= a < |memory| && !(i <= a <= i + 2) ==> m[a] == memory[a]
  {
    memory[i := (v / 10) % 10][i + 2 := v % 10]
  }

  /** The legacy FX33 agrees with the three-digit store exactly when the hundreds digit
      equals the tens digit and I + 1 already holds the tens digit. */
  lemma AsWrittenAgreement(memory: seq<u8>, i: nat, v: u8)
    requires i + 2 < |memory|
    ensures StoreBcdAsWritten(memory, i, v) == StoreBcd(memory, i, v)
      <==> v / 100 == (v / 10) % 10 && memory[i + 1] == (v / 10) % 10
  {
    var m, d := StoreBcdAsWritten(memory, i, v), StoreBcd(memory, i, v);
    if v / 100 == (v / 10) % 10 && memory[i + 1] == (v / 10) % 10 {
      assert forall a :: 0 <= a < |memory| ==> m[a] == d[a];
    } else {
      assert m[i] != d[i] || m[i + 1] != d[i + 1];
    }
  }

  /** With VX = 123 the legacy FX33 leaves 2 at I, the old byte at I + 1 and 3 at I + 2,
      so the stored digits no longer spell VX; the three-digit store leaves 1, 2, 3. */
  lemma BcdCounterexample(memory: seq<u8>, i: nat)
    requires i + 2 < |memory| && memory[i + 1] == 0
    ensures var m := StoreBcdAsWritten(memory, i, 123);
      m[i] == 2 && m[i + 1] == 0 && m[i + 2] == 3 && 100 * m[i] + 10 * m[i + 1] + m[i + 2] != 123
    ensures var d := StoreBcd(memory, i, 123);
      d[i] == 1 && d[i + 1] == 2 && d[i + 2] == 3
  {
    var d := StoreBcd(memory, i, 123);
    assert 100 * (d[i] as int) + 10 * (d[i + 1] as int) + d[i + 2] as int == 123;
  }

  /** One legacy instruction. 7XNN, FX0A and FX33 have their own arms; the others are
      the current engine's. */
  function Exec(s: State, i: Chip8.Instr): (r: Outcome)
    requires s.Valid() && s.programCounter + 1 < MemorySize && Supported(i)
    ensures r.Ok? ==> r.state.Valid()
  {
    if i.AddImm? then
      Ok(Chip8.Next(s).(registers := s.registers[i.x := SaturatingAdd(s.registers[i.x], i.nn)]))
    else if i.WaitKey? then
      Ok(s.(blockedOnKeyPress := true))
    else if i.StoreDecimal? then
      if s.indexRegister + 2 >= MemorySize then Panic(MemoryOutOfRange)
      else Ok(Chip8.Next(s).(memory := StoreBcdAsWritten(s.memory, s.indexRegister, s.registers[i.x])))
    else
      Chip8.Exec(s, i, 0)
  }

  /** The legacy `execute_opcode` on a raw opcode. */
  function ExecuteOpcode(s: State, op: u16): (r: Outcome)
    requires s.Valid() && s.programCounter + 1 < MemorySize
    ensures Decode(op).None? <==> r == Panic(UnknownOpcode(op))
    ensures r.Ok? ==> r.state.Valid()
  {
    match Decode(op)
    case None => Panic(UnknownOpcode(op))
    case Some(i) => Exec(s, i)
  }

  /** `run_cyle`: nothing at all while waiting for a key; otherwise the opcode at the
      counter, followed by one tick of both timers. */
  function RunCycle(s: State): (r: Outcome)
    requires s.Valid()
    ensures s.blockedOnKeyPress ==> r == Ok(s)
    ensures r.Ok? ==> r.state.Valid()
  {
    if s.blockedOnKeyPress then Ok(s)
    else match FetchOpcode(s.memory, s.programCounter)
      case None => Panic(MemoryOutOfRange)
      case Some(op) =>
        match ExecuteOpcode(s, op)
        case Panic(f) => Panic(f)
        case Ok(t) => Ok(DecrementTimers(t))
  }

  /** An unblocked legacy cycle executes the big-endian word at the counter; a panic
      of that opcode is the cycle's panic, and otherwise both timers then tick once,
      stopping at zero. */
  lemma CycleExecutesFetched(s: State)
    requires s.Valid() && !s.blockedOnKeyPress
    ensures s.programCounter + 1 >= MemorySize ==> RunCycle(s) == Panic(MemoryOutOfRange)
    ensures s.programCounter + 1 < MemorySize ==>
      var e := ExecuteOpcode(s, (s.memory[s.programCounter] as int) * 0x100 + s.memory[s.programCounter + 1]);
      && (e.Panic? ==> RunCycle(s) == e)
      && (e.Ok? ==> RunCycle(s) == Ok(e.state.(
            delayTimer := if e.state.delayTimer > 0 then e.state.delayTimer - 1 else 0,
            soundTimer := if e.state.soundTimer > 0 then e.state.soundTimer - 1 else 0)))
  {
  }

  /** The legacy `load_rom`: byte k of the program goes to 0x200 + k with no bound, so a
      program longer than the 3584 bytes of the program area indexes past memory. */
  function LoadRom(s: State, rom: seq<u8>): (r: Outcome)
    requires s.Valid()
    ensures r.Ok? <==> |rom| <= MemorySize - ProgramStart
    ensures r.Ok? ==> r.state.Valid() && r.state == s.(memory := r.state.memory)
    ensures r.Ok? ==> forall k :: 0 <= k < |rom| ==> r.state.memory[ProgramStart + k] == rom[k]
    ensures r.Ok? ==> forall a :: 0 <= a < ProgramStart || ProgramStart + |rom| <= a < MemorySize ==>
      r.state.memory[a] == s.memory[a]
  {
    if |rom| > MemorySize - ProgramStart then Panic(MemoryOutOfRange)
    else Ok(s.(memory := LoadedMemory(s.memory, rom)))
  }

  /** The instructions the two engines share behave the same in both. */
  lemma AgreesWithCurrentEngine(s: State, op: u16, rnd: u8)
    requires s.Valid() && s.programCounter + 1 < MemorySize && Decode(op).Some?
    requires !Decode(op).value.AddImm? && !Decode(op).value.WaitKey? && !Decode(op).value.StoreDecimal?
    ensures ExecuteOpcode(s, op) == Chip8.ExecuteOpcode(s, op, rnd)
  {
    var i := Decode(op).value;
    assert !Chip8.IsArithmetic(i) || i.LoadImm?;
  }

  /** 7XNN saturates at 255, where the current engine wraps around; below 256 the two
      engines agree. */
  lemma AddImmSaturates(s: State, x: Nibble, nn: u8, rnd: u8)
    requires s.Valid() && s.programCounter + 1 < MemorySize
    ensures Exec(s, Chip8.AddImm(x, nn)).Ok?
    ensures Exec(s, Chip8.AddImm(x, nn)).state
      == s.(registers := s.registers[x := Min(0xFF, s.registers[x] as int + nn)], programCounter := s.programCounter + 2)
    ensures s.registers[x] as int + nn <= 0xFF ==> Exec(s, Chip8.AddImm(x, nn)) == Chip8.Exec(s, Chip8.AddImm(x, nn), rnd)
    ensures s.registers[x] as int + nn > 0xFF ==>
      Chip8.Exec(s, Chip8.AddImm(x, nn), rnd).state.registers[x] == s.registers[x] as int + nn - 0x100
  {
  }

  /** FX0A only sets the wait: the keys stay as they were and the counter stays on FX0A,
      while the current engine also releases every key. */
  lemma WaitKeyKeepsKeys(s: State, x: Nibble, rnd: u8)
    requires s.Valid() && s.programCounter + 1 < MemorySize
    ensures Exec(s, Chip8.WaitKey(x)) == Ok(s.(blockedOnKeyPress := true))
    ensures Chip8.Exec(s, Chip8.WaitKey(x), rnd) == Ok(s.(blockedOnKeyPress := true, keyState := NoKeys()))
  {
  }

  /** A cycle on FX0A sets the wait and still ticks the timers; the cycles after it change
      nothing, timers included, and `complete_fx0a` (the same in both engines) stores the
      key and moves past FX0A. */
  lemma WaitThenComplete(s: State, x: Nibble, key: u8)
    requires s.Valid() && !s.blockedOnKeyPress && s.programCounter + 1 < MemorySize
    requires FetchOpcode(s.memory, s.programCounter) == Some(Chip8.Encode(Chip8.WaitKey(x)))
    ensures RunCycle(s) == Ok(DecrementTimers(s).(blockedOnKeyPress := true))
    ensures var t := RunCycle(s).state;
      && RunCycle(t) == Ok(t)
      && Chip8.CompleteFx0a(t, key)
         == Ok(DecrementTimers(s).(registers := s.registers[x := key], programCounter := s.programCounter + 2))
  {
    DecodeEncode(Chip8.WaitKey(x));
    AssembleFields(0xF, x, 0x0, 0xA);
  }

  /** FX15 takes effect before the tick of the same cycle, and FX07 reads the delay timer
      before it. */
  lemma CycleExecutesThenTicks(s: State, x: Nibble)
    requires s.Valid() && !s.blockedOnKeyPress && s.programCounter + 1 < MemorySize
    ensures FetchOpcode(s.memory, s.programCounter) == Some(Chip8.Encode(Chip8.SetDelay(x))) ==>
      RunCycle(s) == Ok(s.(delayTimer := SaturatingSub(s.registers[x], 1), soundTimer := SaturatingSub(s.soundTimer, 1),
                           programCounter := s.programCounter + 2))
    ensures FetchOpcode(s.memory, s.programCounter) == Some(Chip8.Encode(Chip8.LoadDelay(x))) ==>
      RunCycle(s) == Ok(DecrementTimers(s).(registers := s.registers[x := s.delayTimer],
                                            programCounter := s.programCounter + 2))
  {
    DecodeEncode(Chip8.SetDelay(x));
    DecodeEncode(Chip8.LoadDelay(x));
  }

  /** FX55 and FX65 copy the inclusive range 0..=X, as in the current engine, so a store
      followed by a load from the same index restores registers 0..=X. */
  lemma StoreThenLoad(s: State, u: State, x: Nibble)
    requires s.Valid() && s.programCounter + 1 < MemorySize && s.indexRegister + x < MemorySize
    requires u.Valid() && u.programCounter + 1 < MemorySize && u.indexRegister == s.indexRegister
    requires u.memory == Exec(s, Chip8.StoreRegs(x)).state.memory
    ensures Exec(u, Chip8.LoadRegs(x)).Ok?
    ensures Exec(u, Chip8.LoadRegs(x)).state.registers == s.registers[..x + 1] + u.registers[x + 1..]
  {
    Chip8.StoreThenLoad(s, u, x, 0);
  }
}
