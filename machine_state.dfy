/** The state of a CHIP-8 virtual machine as a value, the ways an opcode can make the
    engine panic, and the operations on that state that both engine snapshots share. */
module MachineState {
  import opened Word

  const MemorySize: nat := 0x1000
  /** Where programs are loaded and where execution starts. */
  const ProgramStart: nat := 0x200
  const RegisterCount: nat := 16
  const StackSize: nat := 16
  const KeyCount: nat := 16
  /** VF: carry, borrow, shifted-out bit and collision flag. */
  const FlagRegister: Nibble := 0xF
  const ScreenWidth: nat := 64
  const ScreenHeight: nat := 32
  const ScreenSize: nat := ScreenWidth * ScreenHeight

  /** The fields of `VirtualMachine`, in their order. */
  datatype State = State(
    memory: seq<u8>,
    registers: seq<u8>,
    stack: seq<u16>,
    stackPointer: u8,
    screen: seq<u8>,
    indexRegister: u16,
    programCounter: u16,
    delayTimer: u8,
    soundTimer: u8,
    keyState: seq<bool>,
    blockedOnKeyPress: bool)
  {
    /** The fixed sizes of the arrays, a stack pointer within the stack, and return
        addresses that are addresses of memory (every one was the counter of a fetched
        call). */
    predicate Valid()
    {
      && |memory| == MemorySize
      && |registers| == RegisterCount
      && |stack| == StackSize
      && stackPointer <= StackSize
      && |screen| == ScreenSize
      && |keyState| == KeyCount
      && forall k :: 0 <= k < |stack| ==> stack[k] < MemorySize
    }
  }

  /** What makes the engine panic. */
  datatype Fault =
    | UnknownOpcode(opcode: u16)
    | StackOverflow
    | StackUnderflow
    | MemoryOutOfRange
    | InvalidKey(key: u8)
    | InvalidSprite(sprite: u8)
    | IndexOverflow

  /** The state after an operation, or the panic that ends the run. */
  datatype Outcome = Ok(state: State) | Panic(fault: Fault)

  /** How a machine object reports an outcome: on success it holds the new state and
      reports no fault; on a panic it reports the fault and, since the process would
      abort, is left as it was. */
  ghost predicate Reflects(r: Outcome, before: State, after: State, fault: Option<Fault>)
  {
    match r
    case Ok(t) => after == t && fault == None
    case Panic(f) => after == before && fault == Some(f)
  }

  function Blank(): (screen: seq<u8>)
    ensures |screen| == ScreenSize && forall p :: 0 <= p < ScreenSize ==> screen[p] == 0
  {
    seq(ScreenSize, _ => 0)
  }

  function NoKeys(): (keys: seq<bool>)
    ensures |keys| == KeyCount && forall k :: 0 <= k < KeyCount ==> !keys[k]
  {
    seq(KeyCount, _ => false)
  }

  /** `VirtualMachine::new()` (identical in both snapshots). The font set is copied into
      a local array that is then dropped, so memory starts all zero. */
  function Initial(): (s: State)
    ensures s.Valid()
  {
    State(seq(MemorySize, _ => 0), seq(RegisterCount, _ => 0), seq(StackSize, _ => 0), 0,
          Blank(), 0, ProgramStart, 0, 0, NoKeys(), false)
  }

  /** The font area: sixteen glyphs of five bytes, one per hexadecimal digit. */
  const FontSize: nat := 80

  /** `new()` as its loop over the font set evidently intends: the same machine with the
      font at addresses 0 to 79. */
  function InitialWithFont(font: seq<u8>): (s: State)
    requires |font| == FontSize
    ensures s.Valid() && s == Initial().(memory := s.memory)
    ensures s.memory[..FontSize] == font && forall a :: FontSize <= a < MemorySize ==> s.memory[a] == 0
  {
    Initial().(memory := font + seq(MemorySize - FontSize, _ => 0))
  }

  /** `fetch_opcode`: the big-endian word at the counter; indexing panics unless both
      bytes are in memory. */
  function FetchOpcode(memory: seq<u8>, pc: u16): (r: Option<u16>)
    requires |memory| == MemorySize
    ensures r.Some? <==> pc + 1 < MemorySize
    ensures r.Some? ==> r.value / 0x100 == memory[pc] && r.value % 0x100 == memory[pc + 1]
  {
    if pc + 1 < MemorySize then Some(BigEndian(memory[pc], memory[pc + 1])) else None
  }

  datatype Option<T> = None | Some(value: T)

  /** Memory after copying `rom` to the program area, keeping whatever the addresses it
      does not reach held before. */
  function LoadedMemory(memory: seq<u8>, rom: seq<u8>): (m: seq<u8>)
    requires |memory| == MemorySize
    ensures |m| == MemorySize
    ensures forall a :: 0 <= a < MemorySize ==>
      m[a] == if ProgramStart <= a < ProgramStart + |rom| then rom[a - ProgramStart] else memory[a]
  {
    var n := Min(|rom|, MemorySize - ProgramStart);
    memory[..ProgramStart] + rom[..n] + memory[ProgramStart + n..]
  }

  /** Loading a program is idempotent. */
  lemma LoadTwice(memory: seq<u8>, rom: seq<u8>)
    requires |memory| == MemorySize
    ensures LoadedMemory(LoadedMemory(memory, rom), rom) == LoadedMemory(memory, rom)
  {
  }

  /** A shorter program loaded over a longer one leaves the longer one's tail in place. */
  lemma ReloadKeepsTail(memory: seq<u8>, first: seq<u8>, second: seq<u8>, a: nat)
    requires |memory| == MemorySize && |second| <= |first|
    requires ProgramStart + |second| <= a < Min(ProgramStart + |first|, MemorySize)
    ensures LoadedMemory(LoadedMemory(memory, first), second)[a] == first[a - ProgramStart]
  {
  }

  /** `get_pixel_mut`'s index; row and column can be recovered from it. */
  function PixelIndex(row: nat, col: nat): (p: nat)
    requires row < ScreenHeight && col < ScreenWidth
    ensures p < ScreenSize && p / ScreenWidth == row && p % ScreenWidth == col
  {
    row * ScreenWidth + col
  }

  function Pixel(screen: seq<u8>, row: nat, col: nat): u8
    requires |screen| == ScreenSize && row < ScreenHeight && col < ScreenWidth
  {
    screen[PixelIndex(row, col)]
  }

  /** Every pixel index is the index of its row and column. */
  lemma PixelOfIndex(p: nat)
    requires p < ScreenSize
    ensures p / ScreenWidth < ScreenHeight && PixelIndex(p / ScreenWidth, p % ScreenWidth) == p
  {
  }

  /** `screen_rows`: the screen split into 32 rows of 64 pixels. */
  function ScreenRows(screen: seq<u8>): (rows: seq<seq<u8>>)
    requires |screen| == ScreenSize
    ensures |rows| == ScreenHeight
    ensures forall r :: 0 <= r < ScreenHeight ==> |rows[r]| == ScreenWidth
    ensures forall r, c :: 0 <= r < ScreenHeight && 0 <= c < ScreenWidth ==> rows[r][c] == Pixel(screen, r, c)
  {
    seq(ScreenHeight, r requires 0 <= r < ScreenHeight => screen[r * ScreenWidth..(r + 1) * ScreenWidth])
  }

  /** The counter advanced past the current opcode, or past the next one too. */
  function Skip(s: State, taken: bool): (t: State)
    requires s.programCounter + 4 < 0x1_0000
    ensures t.programCounter == s.programCounter + if taken then 4 else 2
    ensures t == s.(programCounter := t.programCounter)
  {
    s.(programCounter := s.programCounter + if taken then 4 else 2)
  }

  /** FX55: registers 0 to x inclusive written to memory from address i on. */
  function StoreRegisters(memory: seq<u8>, registers: seq<u8>, i: nat, x: Nibble): (m: seq<u8>)
    requires |registers| == RegisterCount && i + x < |memory|
    ensures |m| == |memory|
    ensures forall k :: 0 <= k <= x ==> m[i + k] == registers[k]
    ensures forall a :: 0 <= a < |memory| && !(i <= a <= i + x) ==> m[a] == memory[a]
  {
    seq(|memory|, a requires 0 <= a < |memory| => if i <= a <= i + x then registers[a - i] else memory[a])
  }

  /** FX65: registers 0 to x inclusive read from memory from address i on. */
  function LoadRegisters(registers: seq<u8>, memory: seq<u8>, i: nat, x: Nibble): (r: seq<u8>)
    requires |registers| == RegisterCount && i + x < |memory|
    ensures |r| == RegisterCount
    ensures forall k :: 0 <= k <= x ==> r[k] == memory[i + k]
    ensures forall k :: x < k < RegisterCount ==> r[k] == registers[k]
  {
    seq(RegisterCount, k requires 0 <= k < RegisterCount => if k <= x then memory[i + k] else registers[k])
  }

  /** Storing registers 0..=x and loading them back from the same address restores those
      x + 1 registers, whatever the registers hold at the time of the load, and leaves the
      registers above x as they are then. */
  lemma StoreLoadRoundTrip(memory: seq<u8>, stored: seq<u8>, current: seq<u8>, i: nat, x: Nibble)
    requires |stored| == RegisterCount && |current| == RegisterCount && i + x < |memory|
    ensures LoadRegisters(current, StoreRegisters(memory, stored, i, x), i, x)
      == stored[..x + 1] + current[x + 1..]
  {
  }

  /** The decimal digits of a byte: hundreds, tens, units. */
  function Bcd(v: u8): (d: (u8, u8, u8))
    ensures d.0 < 3 && d.1 < 10 && d.2 < 10
    ensures 100 * d.0 + 10 * d.1 + d.2 == v
  {
    (v / 100, (v / 10) % 10, v % 10)
  }

  /** FX33 of the current engine: the three digits at i, i + 1 and i + 2. */
  function StoreBcd(memory: seq<u8>, i: nat, v: u8): (m: seq<u8>)
    requires i + 2 < |memory|
    ensures |m| == |memory|
    ensures 100 * (m[i] as int) + 10 * (m[i + 1] as int) + m[i + 2] as int == v
    ensures m[i + 1] < 10 && m[i + 2] < 10
    ensures forall a :: 0 <= a < |memory| && (a < i || a > i + 2) ==> m[a] == memory[a]
  {
    var d := Bcd(v);
    memory[i := d.0][i + 1 := d.1][i + 2 := d.2]
  }

  /** `get_sprite_address`: the glyph of a hexadecimal digit, five bytes each, inside the
      80-byte font area. */
  function SpriteAddress(id: u8): (a: u8)
    requires id <= 0xF
    ensures a % 5 == 0 && a / 5 == id && a + 5 <= 80
  {
    id * 5
  }

  /** With the font loaded, the five bytes FX29 points at for digit d are the glyph of d. */
  lemma GlyphsLoaded(font: seq<u8>, d: u8, k: nat)
    requires |font| == FontSize && d <= 0xF && k < 5
    ensures InitialWithFont(font).memory[SpriteAddress(d) + k] == font[5 * d + k]
  {
    assert InitialWithFont(font).memory[SpriteAddress(d) + k] == InitialWithFont(font).memory[..FontSize][5 * d + k];
  }

  /** `decrement_timers`: both timers one lower, stopping at zero. */
  function DecrementTimers(s: State): (t: State)
    ensures t.delayTimer == if s.delayTimer > 0 then s.delayTimer - 1 else 0
    ensures t.soundTimer == if s.soundTimer > 0 then s.soundTimer - 1 else 0
    ensures t == s.(delayTimer := t.delayTimer, soundTimer := t.soundTimer)
  {
    s.(delayTimer := SaturatingSub(s.delayTimer, 1), soundTimer := SaturatingSub(s.soundTimer, 1))
  }

  function DecrementTimersTimes(s: State, n: nat): State
  {
    if n == 0 then s else DecrementTimers(DecrementTimersTimes(s, n - 1))
  }

  /** After n ticks each timer is n lower, floored at zero, and nothing else changed. */
  lemma {:induction false} TimersFloorAtZero(s: State, n: nat)
    ensures DecrementTimersTimes(s, n).delayTimer == if s.delayTimer >= n then s.delayTimer - n else 0
    ensures DecrementTimersTimes(s, n).soundTimer == if s.soundTimer >= n then s.soundTimer - n else 0
    ensures DecrementTimersTimes(s, n) == s.(delayTimer := DecrementTimersTimes(s, n).delayTimer,
                                             soundTimer := DecrementTimersTimes(s, n).soundTimer)
  {
    if n > 0 {
      TimersFloorAtZero(s, n - 1);
    }
  }

  /** The register bulk store of FX55 on the machine's arrays. */
  method StoreRegistersInto(memory: array<u8>, registers: array<u8>, i: nat, x: Nibble)
    requires registers.Length == RegisterCount && i + x < memory.Length && registers != memory
    modifies memory
    ensures memory[..] == StoreRegisters(old(memory[..]), registers[..], i, x)
  {
    var idx := 0;
    while idx <= x
      invariant 0 <= idx <= x + 1
      invariant registers[..] == old(registers[..])
      invariant forall a :: 0 <= a < memory.Length ==>
        memory[a] == if i <= a < i + idx then registers[a - i] else old(memory[a])
    {
      memory[i + idx] := registers[idx];
      idx := idx + 1;
    }
  }

  /** The register bulk load of FX65 on the machine's arrays. */
  method LoadRegistersFrom(registers: array<u8>, memory: array<u8>, i: nat, x: Nibble)
    requires registers.Length == RegisterCount && i + x < memory.Length && registers != memory
    modifies registers
    ensures registers[..] == LoadRegisters(old(registers[..]), memory[..], i, x)
  {
    var idx := 0;
    while idx <= x
      invariant 0 <= idx <= x + 1
      invariant forall k :: 0 <= k < RegisterCount ==>
        registers[k] == if k < idx then memory[i + k] else old(registers[k])
    {
      registers[idx] := memory[i + idx];
      idx := idx + 1;
    }
  }
}
