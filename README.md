# A verified model of the chip8rs CHIP-8 interpreter

This project models the interpreter core of `chip8rs`, a CHIP-8 virtual machine written
in Rust, and proves what its opcodes do. It covers two snapshots of the engine's
`VirtualMachine`:

- `chip8/src/lib.rs`, the current engine. It decodes every opcode family.
- `src/chip8/mod.rs`, an older engine. It decodes only the 0, 1 to 7 and F families.
  Its 7XNN saturates, its FX0A leaves the key flags alone, its FX33 is buggy, and its
  `run_cyle` ticks the timers after every opcode.

The machine is a fixed-size state:

- 4096 bytes of memory and sixteen 8-bit registers;
- a 16-entry call stack with its stack pointer;
- a 64 × 32 screen of bytes;
- the index register, the program counter and two timers;
- 16 key flags and the "blocked on key press" flag.

Opcodes are 16-bit big-endian words fetched at the counter.

The project is organised as follows:

- `word.dfy` (module `Word`): the Rust integer types and the `u8` operations the
  opcodes call, written out: wrapping, overflowing and saturating addition, shifts with
  the bit shifted out, bitwise operations defined bit by bit on naturals (`Bit` is bit
  k of a number), and the opcode fields.
- `machine_state.dfy` (module `MachineState`): the state as a datatype and the ways the
  engine panics (`Fault`), plus what both engines share:
  - `new`, fetch, `load_rom`'s copy and pixel indexing;
  - the inclusive register bulk transfer;
  - BCD, the font address and the timer tick;
  - the loops of FX55 and FX65 as methods on arrays.
- `sprite.dfy` (module `Sprite`): DXYN.
  - `DrawRows`/`DrawRow` follow the engine's nested loops, including their `break`s.
  - `Lit` is an independent, declarative description of the pixels a sprite covers,
    with wrapping when the anchor is off the screen and clipping otherwise.
  - The lemmas prove that the loops toggle exactly the lit pixels. They also prove that
    the collision flag is set exactly when a pixel went from 1 to 0, and that drawing
    twice restores the screen.
- `chip8.dfy` (module `Chip8`): the current engine as functions.
  - `Decode` goes from opcode to `Instr` and returns `None` on every "Unknown opcode"
    panic. `Encode` is its inverse on canonical opcodes.
  - `Exec` gives the effect of each instruction as an `Outcome`: a new state, or the
    panic the Rust code would raise.
  - `Step` is `execute_instruction` and `CompleteFx0a` is `complete_fx0a`. `Run`
    chains steps.
- `legacy.dfy` (module `Legacy`): the older engine as functions. Its own arms are
  7XNN, FX0A, FX33, `run_cyle` and `load_rom`. The arms it shares with the current
  engine are `Chip8.Exec`, and the lemmas say where the two engines agree and where
  they differ.
- `chip8_vm.dfy` and `legacy_vm.dfy` (modules `Chip8Vm` and `LegacyVm`): each engine's
  `VirtualMachine` as a class.
  - The class has the struct's arrays and fields and updates them in place, with the
    engine's loops: the load copy, the FX55/FX65 transfers, the DXYN row and column
    loops with `break`, and the row split of `screen_rows`.
  - Every method is proved to leave the object in the state that the corresponding
    function computes from the state before the call (`Reflects`). On a panic the
    object is left unchanged and the method returns the fault.

Environment inputs become parameters:

- the byte `fastrand` would give CXNN is the parameter `rnd` of `Chip8.Step`,
  `Chip8.Exec` and the class methods;
- the key flags, which the frontends write directly, are part of the state.

Where some descriptions of this engine say otherwise, the model follows the code:

- `new()` leaves the whole memory zero. The font set is copied into a local array that
  is dropped (see Findings).
- The flag of 8XY5 and 8XY7 is 1 only when the minuend is strictly greater; equal
  operands give 0.
- FX29 panics on a register above 0xF (`assert!` in `get_sprite_address`) instead of
  using its low digit.
- BNNN sets the index register to NNN + V0; it does not jump.

## Model

| member | source | states |
|---|---|---|
| Word.OverflowingAdd | chip8/src/lib.rs:174-189 | the stored byte plus 256 when the carry is reported is exactly the true sum |
| Word.WrappingAdd | chip8/src/lib.rs:134-141 | the result is the true sum or the sum less 256 |
| Word.WrappingSub | chip8/src/lib.rs:190-205 | the result is the true difference or the difference plus 256 |
| Word.SaturatingAdd | src/chip8/mod.rs:132-139 | never more than the true sum, and below it only when the result is 255 |
| Word.SaturatingSub | chip8/src/lib.rs:464-467 | never less than the true difference, and above it only when the result is 0 |
| Word.ShiftRightOut | chip8/src/lib.rs:206-214 | twice the shifted byte plus the bit shifted out is the original byte |
| Word.ShiftLeftOut | chip8/src/lib.rs:230-238 | the shifted byte plus 256 times the bit shifted out is twice the original |
| Word.OrBits | chip8/src/lib.rs:150-157 | bitwise OR, bit by bit: the result fits the width and is never below either operand, and OR with 0 is the identity |
| Word.AndBits | chip8/src/lib.rs:158-165 | bitwise AND, bit by bit: never above either operand, AND with all ones is the identity and AND with 0 is 0 |
| Word.XorBits | chip8/src/lib.rs:166-173 | bitwise XOR, bit by bit: the result fits the width, is 0 exactly when the operands are equal, and XOR with 0 is the identity |
| Word.OrBitsBit | chip8/src/lib.rs:150-157 | bit k of the OR is set exactly when bit k of either operand is, for every k below the width |
| Word.AndBitsBit | chip8/src/lib.rs:158-165 | bit k of the AND is set exactly when bit k of both operands is, for every k below the width |
| Word.XorBitsBit | chip8/src/lib.rs:166-173 | bit k of the XOR is set exactly when bits k of the operands differ, for every k below the width |
| Word.ByteBits | chip8/src/lib.rs:150-173 | on bytes, each of the 8 bits of `a \| b`, `a & b` and `a ^ b` is the OR, AND and XOR of the operands' bits; with the result below 256 this fixes the value |
| Word.BitOr | chip8/src/lib.rs:150-157 | 8XY1's `vx \| vy` is a byte never below either operand, equal to VX when VY = 0; its bits are stated by Word.ByteBits |
| Word.BitAnd | chip8/src/lib.rs:158-165 | 8XY2's `vx & vy` (and CXNN's mask) is never above either operand, keeps VX under 0xFF and clears it under 0; its bits are stated by Word.ByteBits |
| Word.BitXor | chip8/src/lib.rs:166-173 | 8XY3's `vx ^ vy` is 0 exactly when VX = VY and equals VX when VY = 0; its bits are stated by Word.ByteBits |
| Word.BigEndian | chip8/src/lib.rs:57-61 | the high and low byte are recovered from the opcode by division and remainder by 256 |
| Word.RegisterX | chip8/src/lib.rs:444-446 | `get_register_x` is the digit X: 256·X ≤ opcode mod 4096 < 256·(X + 1) |
| Word.RegisterY | chip8/src/lib.rs:448-450 | `get_register_y` is the digit Y: 16·Y ≤ opcode mod 256 < 16·(Y + 1) |
| Word.FieldsReassemble | chip8/src/lib.rs:444-450 | the four hex digits the dispatch extracts make up the opcode, and NN and NNN are made of them |
| Word.AssembleFields | chip8/src/lib.rs:444-450 | extracting family, X, Y, N, NN and NNN from an opcode built of four digits gives those digits back |
| MachineState.Blank | chip8/src/lib.rs:66-70 | a screen of 2048 zero pixels |
| MachineState.NoKeys | chip8/src/lib.rs:460-462 | 16 key flags, all released |
| MachineState.Initial | chip8/src/lib.rs:21-40 | the state `new()` builds is well formed |
| MachineState.InitialWithFont | chip8/src/lib.rs:21-26 | the intended new machine: the same state with the font at 0 to 79 and zero above |
| MachineState.GlyphsLoaded | chip8/src/lib.rs:21-26 | with the font loaded, the five bytes at the FX29 address of digit d are glyph d |
| MachineState.FetchOpcode | chip8/src/lib.rs:57-61 | an opcode exists exactly when both bytes are in memory, and its high and low byte are memory[pc] and memory[pc + 1] |
| MachineState.LoadedMemory | chip8/src/lib.rs:42-47 | after loading, byte a is the program's byte a − 0x200 inside the program's span, and the old byte everywhere else, the copy stopping at the end of memory |
| MachineState.LoadTwice | chip8/src/lib.rs:42-47 | loading the same program twice equals loading it once |
| MachineState.ReloadKeepsTail | chip8/src/lib.rs:42-47 | a shorter program loaded over a longer one leaves the longer one's tail in memory |
| MachineState.PixelIndex | chip8/src/lib.rs:452-454 | the index of (row, col) is on the screen, and row and column are recovered from it |
| MachineState.PixelOfIndex | chip8/src/lib.rs:452-454 | every screen index is the index of its own row and column |
| MachineState.Skip | chip8/src/lib.rs:93-125 | a skip moves the counter by 4 when taken and by 2 otherwise, and changes nothing else |
| MachineState.ScreenRows | chip8/src/lib.rs:456-458 | 32 rows of 64 pixels, pixel c of row r being the screen pixel (r, c) |
| MachineState.StoreRegisters | chip8/src/lib.rs:364-373 | FX55 puts V0..=VX at I..=I + X and leaves every other byte of memory as it was |
| MachineState.LoadRegisters | chip8/src/lib.rs:374-383 | FX65 sets V0..=VX from I..=I + X and keeps the registers above X |
| MachineState.StoreLoadRoundTrip | chip8/src/lib.rs:364-383 | loading registers 0..=x from where they were stored gives back those x + 1 registers and keeps the current registers above x |
| MachineState.Bcd | chip8/src/lib.rs:408-421 | three decimal digits (hundreds below 3) whose value is the byte |
| MachineState.StoreBcd | chip8/src/lib.rs:408-421 | the digits at i, i + 1, i + 2 spell the byte in decimal, and no other byte changes |
| MachineState.SpriteAddress | chip8/src/lib.rs:428-432 | the font address of digit d is 5·d: a multiple of 5 inside the 80-byte font area |
| MachineState.DecrementTimers | chip8/src/lib.rs:464-467 | one tick lowers each timer by one, stopping at zero, and changes nothing else |
| MachineState.TimersFloorAtZero | chip8/src/lib.rs:464-467 | n ticks lower each timer by n, down to zero, and change nothing else |
| MachineState.StoreRegistersInto | chip8/src/lib.rs:364-373 | the array loop of FX55 leaves memory as the inclusive store 0..=x at i specifies |
| MachineState.LoadRegistersFrom | chip8/src/lib.rs:374-383 | the array loop of FX65 leaves the registers as the inclusive load 0..=x from i specifies |
| Sprite.Toggle | chip8/src/lib.rs:306-307 | `^= 1` flips the lowest bit of the pixel and keeps the others |
| Sprite.DrawRow | chip8/src/lib.rs:295-313 | the column loop for one sprite byte keeps the screen size; its effect is stated by DrawRowPixels and DrawRowCollision |
| Sprite.DrawRows | chip8/src/lib.rs:286-314 | the row loop keeps the screen size; its effect is stated by DrawRowsPixels and DrawRowsCollision |
| Sprite.Draw | chip8/src/lib.rs:276-317 | the whole draw from row 0 with the flag cleared keeps the screen size, and a 0-row sprite changes nothing; its effect is stated by DrawEffect |
| Sprite.ColumnOffsetOf | chip8/src/lib.rs:295-300 | screen column c gets sprite column k exactly when c is where the column loop puts column k, wrapped or not |
| Sprite.RowOffsetOf | chip8/src/lib.rs:286-293 | screen row r gets sprite row y exactly when r is where the row loop puts row y, wrapped or not |
| Sprite.DrawRowPixels | chip8/src/lib.rs:295-313 | the column loop toggles exactly the pixels of its row under set sprite bits, and no other pixel |
| Sprite.RowHitStep | chip8/src/lib.rs:301-312 | one column step: the collision found from column k on is the one found at column k or from column k + 1 on |
| Sprite.DrawRowCollision | chip8/src/lib.rs:295-313 | the column loop reports a collision exactly when it had one already or a pixel it toggles was 1 |
| Sprite.DrawRowsPixels | chip8/src/lib.rs:286-314 | the row loop toggles exactly the pixels under set sprite bits of the rows it reaches |
| Sprite.RowsHitStep | chip8/src/lib.rs:286-314 | one row step: a collision from row y on is one in row y or one from row y + 1 on |
| Sprite.DrawRowsCollision | chip8/src/lib.rs:286-314 | the row loop reports a collision exactly when it had one already or a pixel it toggles was 1 |
| Sprite.DrawEffect | chip8/src/lib.rs:276-317 | DXYN toggles exactly the pixels `Lit` names (wrap when the anchor is off the screen, clip otherwise) and collides exactly when one of them was 1 |
| Sprite.CollisionIffPixelErased | chip8/src/lib.rs:304-311 | the collision flag is set exactly when some pixel went from 1 to 0 |
| Sprite.DrawTwiceRestores | chip8/src/lib.rs:276-317 | drawing the same sprite at the same place twice gives back the original screen |
| Sprite.DrawTwiceOnBlank | chip8/src/lib.rs:276-317 | on a blank screen the first draw cannot collide, and the second collides exactly when the sprite lights some pixel |
| Sprite.DrawKeepsPixelsBinary | chip8/src/lib.rs:306-307 | a screen of 0/1 pixels stays a screen of 0/1 pixels |
| Sprite.WrapVersusClip | chip8/src/lib.rs:284-300 | an anchored sprite lights nothing left of or above its anchor; an off-screen anchor wraps, with its first bit landing on the anchor modulo the screen size |
| Sprite.GlyphsBlank | chip8/src/lib.rs:21-40 | in the memory `new()` builds, every glyph FX29 points at is blank, so DXY5 from it leaves any screen unchanged with no collision |
| Chip8.DecodeEncodeSystem | chip8/src/lib.rs:65-79 | 00E0 and 00EE decode back from their canonical opcodes |
| Chip8.DecodeEncodeControl | chip8/src/lib.rs:80-92 | 1NNN and 2NNN decode back with their whole address |
| Chip8.DecodeEncodeImmediate | chip8/src/lib.rs:93-141 | 3XNN to 7XNN decode back from their canonical opcodes |
| Chip8.DecodeEncodeLogic | chip8/src/lib.rs:142-173 | 8XY0 to 8XY3 decode back |
| Chip8.DecodeEncodeAlu | chip8/src/lib.rs:174-238 | 8XY4 to 8XYE decode back |
| Chip8.DecodeEncodeIndex | chip8/src/lib.rs:241-266 | 9XY0, ANNN and BNNN decode back |
| Chip8.DecodeEncodeSprites | chip8/src/lib.rs:267-317 | CXNN and DXYN decode back |
| Chip8.DecodeEncodeKeys | chip8/src/lib.rs:318-342 | EX9E and EXA1 decode back |
| Chip8.DecodeEncodeTimers | chip8/src/lib.rs:343-392 | FX07, FX0A, FX15 and FX18 decode back |
| Chip8.DecodeEncodeMemory | chip8/src/lib.rs:364-421 | FX55, FX65, FX1E, FX29 and FX33 decode back |
| Chip8.DecodeEncode | chip8/src/lib.rs:63-426 | decoding the canonical opcode of any instruction gives the instruction back |
| Chip8.DecodeIgnoresDigits | chip8/src/lib.rs:63-426 | the digits the dispatch does not look at (0__0, 0__E, N of 5XYN/9XYN, Y of 8XY6/8XYE and of every F opcode other than FX15, FX55 and FX65) do not change the instruction |
| Chip8.UnknownOpcodes | chip8/src/lib.rs:63-426 | exactly which digit patterns reach an "Unknown opcode" panic |
| Chip8.DecodeFamily | chip8/src/lib.rs:64-424 | every instruction the dispatch selects belongs to the family `opcode & 0xF000` names |
| Chip8.Flag | chip8/src/lib.rs:174-229 | VF's value for a condition is 0 or 1, and 1 exactly when the condition holds |
| Chip8.Exec | chip8/src/lib.rs:63-426 | every instruction that does not panic leaves a well-formed state |
| Chip8.ExecFlow | chip8/src/lib.rs:65-125 | clear, return, jump, call and the skips keep the state well formed, stack entries included |
| Chip8.Arithmetic | chip8/src/lib.rs:126-275 | 6XNN, 7XNN, the 8 family and CXNN keep a 16-register file |
| Chip8.ExecArithmetic | chip8/src/lib.rs:126-275 | the register opcodes keep the state well formed |
| Chip8.ExecDevices | chip8/src/lib.rs:252-421 | the index, sprite, timer, key-wait and memory opcodes keep the state well formed |
| Chip8.FlowFrame | chip8/src/lib.rs:64-341 | clear, return, jump, call and the skips change only the counter, 00E0 also the screen and 2NNN/00EE also the stack |
| Chip8.DevicesFrame | chip8/src/lib.rs:252-421 | the A to F opcodes other than the skips never touch the stack; only FX55/FX33 write memory, only DXYN the screen, only FX0A the keys, only FX15/FX18 the timers |
| Chip8.ExecFrame | chip8/src/lib.rs:63-426 | only FX55/FX33 write memory, only 00E0/DXYN the screen, only 2NNN/00EE the stack, only FX0A the keys and the wait, only FX15/FX18 the timers |
| Chip8.ExecuteOpcode | chip8/src/lib.rs:63-426 | the engine panics with "Unknown opcode" exactly when the opcode does not decode |
| Chip8.Step | chip8/src/lib.rs:49-55 | while blocked on a key a step changes nothing at all |
| Chip8.StepExecutesFetched | chip8/src/lib.rs:49-61 | an unblocked step executes exactly the word memory[pc]·256 + memory[pc + 1], and panics when the counter leaves no room for one |
| Chip8.CompleteFx0a | chip8/src/lib.rs:434-442 | completion succeeds exactly when an opcode can be fetched at the counter; it then writes the key to the register the opcode's X digit names, ends the wait and moves the counter by 2, and nothing else |
| Chip8.Run | chip8/src/lib.rs:49-55 | repeated steps keep the state well formed; what a run does is stated by RunWhileBlocked and RunConcat |
| Chip8.RunWhileBlocked | chip8/src/lib.rs:49-55 | any number of steps while blocked leave the machine exactly as it was |
| Chip8.RunConcat | chip8/src/lib.rs:49-55 | running two runs one after another is running their concatenation |
| Chip8.CallThenReturn | chip8/src/lib.rs:71-92 | 2NNN pushes the counter and jumps to NNN; the 00EE after it resumes at the call site + 2 with the stack pointer restored |
| Chip8.StackFaults | chip8/src/lib.rs:71-92 | return panics exactly on an empty stack and call exactly on a full one |
| Chip8.SkipsAdvance | chip8/src/lib.rs:93-125 | the six skips advance by 4 when their condition holds and by 2 otherwise, and the key skips panic on a register above 15 |
| Chip8.AddRegisters | chip8/src/lib.rs:174-189 | 8XY4 gives the sum mod 256, VF = 1 exactly when it exceeds 255, and no other register changes |
| Chip8.SubtractRegisters | chip8/src/lib.rs:190-229 | 8XY5/8XY7 give the difference mod 256, VF = 1 exactly when the minuend is strictly greater, and every register other than VX and VF is unchanged |
| Chip8.ShiftRegisters | chip8/src/lib.rs:206-238 | 8XY6/8XYE shift VX by one, and VF, written last, is the bit shifted out, and every register other than VX and VF is unchanged |
| Chip8.ArithmeticAdvances | chip8/src/lib.rs:126-275 | every register opcode moves the counter by 2 and changes nothing but the registers |
| Chip8.AddImmediateWraps | chip8/src/lib.rs:134-141 | 7XNN gives (VX + NN) mod 256 |
| Chip8.RandomMasked | chip8/src/lib.rs:267-275 | CXNN sets VX to the random byte AND NN and changes nothing else but the counter |
| Chip8.IndexOffset | chip8/src/lib.rs:259-266 | BNNN sets I to NNN + V0 and does not jump |
| Chip8.StoreThenLoad | chip8/src/lib.rs:364-383 | FX55 then FX65 with the same I and X restores registers 0..=X, whatever happened in between, and keeps the registers above X |
| Chip8.BulkTransferFaults | chip8/src/lib.rs:364-383 | FX55 and FX65 panic exactly when I + X is outside memory |
| Chip8.DecimalDigits | chip8/src/lib.rs:408-421 | FX33 writes VX/100, (VX/10)%10 and VX%10 at I, I + 1, I + 2 and nothing else |
| Chip8.FontAddress | chip8/src/lib.rs:400-407 | FX29 panics exactly when VX > 15, and otherwise sets I = 5·VX |
| Chip8.AddToIndex | chip8/src/lib.rs:393-399 | FX1E adds VX to I, and panics exactly when the sum passes 0xFFFF |
| Chip8.DrawSprite | chip8/src/lib.rs:276-317 | DXYN toggles exactly the lit pixels; VF is 0 or 1, 1 exactly when a pixel went from 1 to 0; VF is the only register written, the counter moves by 2 and I is kept |
| Chip8.DrawTwice | chip8/src/lib.rs:276-317 | the same DXYN executed twice restores the screen when neither coordinate register is VF |
| Chip8.WaitThenComplete | chip8/src/lib.rs:351-355 | FX0A sets the wait and clears every key without moving the counter, steps then do nothing, and completion stores the key in VX and moves past FX0A |
| Chip8.AddProgram | chip8/src/lib.rs:49-141 | the program 6005 7003 at 0x200 ends with V0 = 8 and the counter at 0x204, nothing else changed |
| Chip8.LoadAndAdd | chip8/src/lib.rs:21-47 | a new machine loaded with 6005 7003 reaches V0 = 8 after two steps |
| Legacy.Decode | src/chip8/mod.rs:61-220 | families 8 to E never decode; every other opcode decodes exactly as in the current engine, to a supported instruction |
| Legacy.DecodeEncode | src/chip8/mod.rs:61-220 | every supported instruction decodes back from its canonical opcode |
| Legacy.UndecodableFamilies | src/chip8/mod.rs:218 | any 8 to E opcode panics as unknown, including the 9, A, B, C and D opcodes the current engine executes |
| Legacy.StoreBcdAsWritten | src/chip8/mod.rs:204-215 | FX33 as written: the tens digit at I, the old byte kept at I + 1, the units at I + 2, and nothing else changed |
| Legacy.AsWrittenAgreement | src/chip8/mod.rs:204-215 | the legacy FX33 agrees with a correct three-digit store exactly when the hundreds digit equals the tens digit and I + 1 already holds it |
| Legacy.BcdCounterexample | src/chip8/mod.rs:204-215 | with VX = 123 the legacy FX33 leaves 2, the old byte, 3, whose decimal value is not 123; the correct store leaves 1, 2, 3 |
| Legacy.Exec | src/chip8/mod.rs:61-220 | every legacy instruction that does not panic leaves a well-formed state |
| Legacy.ExecuteOpcode | src/chip8/mod.rs:61-220 | the legacy engine panics as unknown exactly when its dispatch does not decode the opcode |
| Legacy.RunCycle | src/chip8/mod.rs:45-53 | a legacy cycle while blocked changes nothing, timers included |
| Legacy.CycleExecutesFetched | src/chip8/mod.rs:45-59 | an unblocked cycle executes the word memory[pc]·256 + memory[pc + 1]; its panic is the cycle's panic, otherwise both timers then tick once, stopping at zero |
| Legacy.LoadRom | src/chip8/mod.rs:39-43 | the load succeeds exactly when the program fits in 3584 bytes; it then puts byte k at 0x200 + k, keeps every other byte and changes nothing but memory |
| Legacy.AgreesWithCurrentEngine | src/chip8/mod.rs:61-220 | every decodable opcode other than 7XNN, FX0A and FX33 has the same outcome in both engines |
| Legacy.AddImmSaturates | src/chip8/mod.rs:132-139 | 7XNN sets VX = min(255, VX + NN) and moves on; without overflow it agrees with the current engine, with overflow the current engine wraps instead |
| Legacy.WaitKeyKeepsKeys | src/chip8/mod.rs:148-151 | FX0A only sets the wait, keeping the keys and the counter, while the current engine also releases every key |
| Legacy.WaitThenComplete | src/chip8/mod.rs:45-53 | the cycle on FX0A sets the wait and still ticks both timers, later cycles change nothing, and completion stores the key and moves past FX0A |
| Legacy.CycleExecutesThenTicks | src/chip8/mod.rs:45-53 | the tick follows the opcode: FX15 in a cycle leaves the delay timer at VX − 1 (floored at 0), and FX07 reads the timer before it ticks |
| Legacy.StoreThenLoad | src/chip8/mod.rs:160-179 | the legacy FX55 then FX65 round-trip registers 0..=X and keep those above X |
| Chip8Vm.VirtualMachine.constructor | chip8/src/lib.rs:21-40 | a new object holds the state `new()` builds: zero memory, registers, stack and screen, counter 0x200, no keys, not blocked |
| Chip8Vm.VirtualMachine.LoadRom | chip8/src/lib.rs:42-47 | the copy loop leaves memory as the load specifies and every other field as it was |
| Chip8Vm.VirtualMachine.FetchOpcode | chip8/src/lib.rs:57-61 | the word memory[pc]·256 + memory[pc + 1], present exactly when both bytes are in memory |
| Chip8Vm.VirtualMachine.ExecuteInstruction | chip8/src/lib.rs:49-55 | the object ends in the state one step computes, or unchanged with the fault the step panics with |
| Chip8Vm.VirtualMachine.ExecuteOpcode | chip8/src/lib.rs:63-426 | the object ends in the state the opcode's execution computes, or reports its panic |
| Chip8Vm.VirtualMachine.Execute | chip8/src/lib.rs:63-426 | the same for a decoded instruction |
| Chip8Vm.VirtualMachine.SkipIf | chip8/src/lib.rs:93-125 | the counter moves by 4 when the condition holds and by 2 otherwise |
| Chip8Vm.VirtualMachine.ExecuteFlow | chip8/src/lib.rs:64-341 | 00E0, 00EE, 1NNN, 2NNN and the skips update the object as the functional model says, panicking on stack and key errors |
| Chip8Vm.VirtualMachine.ExecuteControl | chip8/src/lib.rs:65-92 | 00E0, 00EE, 1NNN and 2NNN update the object as the functional model says, panicking on stack underflow and overflow |
| Chip8Vm.VirtualMachine.ExecuteSkip | chip8/src/lib.rs:93-341 | 3XNN, 4XNN, 5XY0, 9XY0, EX9E and EXA1 move only the counter as the functional model says, panicking when VX is not a key |
| Chip8Vm.VirtualMachine.ClearScreen | chip8/src/lib.rs:66-70 | every pixel is 0 afterwards |
| Chip8Vm.VirtualMachine.ExecuteArithmetic | chip8/src/lib.rs:126-275 | the register opcodes update the register array and counter as the functional model says |
| Chip8Vm.VirtualMachine.ExecuteUnflagged | chip8/src/lib.rs:126-173 | 6XNN, 7XNN, 8XY0 to 8XY3 (and CXNN, lines 267-275) leave the register array as `Chip8.Arithmetic` says |
| Chip8Vm.VirtualMachine.ExecuteFlagged | chip8/src/lib.rs:174-238 | 8XY4, 8XY5, 8XY6, 8XY7 and 8XYE leave VX and VF as `Chip8.Arithmetic` says, the flag written in the source's order |
| Chip8Vm.VirtualMachine.ExecuteDevices | chip8/src/lib.rs:252-421 | the A to F opcodes update the object as the functional model says |
| Chip8Vm.VirtualMachine.ExecuteRegisterTransfer | chip8/src/lib.rs:252-407 | ANNN, BNNN, FX07, FX0A, FX15, FX18, FX1E and FX29 update the fields as the functional model says |
| Chip8Vm.VirtualMachine.ExecuteMemory | chip8/src/lib.rs:364-421 | FX55, FX65 and FX33 update memory or registers as the functional model says, panicking when I + X or I + 2 is outside memory |
| Chip8Vm.VirtualMachine.Draw | chip8/src/lib.rs:276-317 | DXYN: VF cleared, the sprite drawn, VF the collision flag and the counter moved on, as the functional model says; a sprite byte outside memory panics |
| Chip8Vm.VirtualMachine.DrawSprite | chip8/src/lib.rs:286-314 | the row loop with its `break` leaves screen and VF as `Sprite.DrawRows` says and no other register changed |
| Chip8Vm.VirtualMachine.DrawSpriteRowAt | chip8/src/lib.rs:286-294 | one row step reads the sprite byte, stops exactly at the bottom edge of an unwrapped sprite with nothing changed, and otherwise advances `Sprite.DrawRows` by one row |
| Chip8Vm.VirtualMachine.DrawSpriteRow | chip8/src/lib.rs:295-313 | the column loop with its `break` leaves screen and VF as `Sprite.DrawRow` says and no other register changed |
| Chip8Vm.VirtualMachine.DrawSpritePixel | chip8/src/lib.rs:301-312 | one pixel step advances `Sprite.DrawRow` by one column: a set bit toggles the pixel and a 1 to 0 change sets VF, no other register changed |
| Chip8Vm.VirtualMachine.CompleteFx0a | chip8/src/lib.rs:434-442 | the object ends in the state completion computes, or reports the fetch panic |
| Chip8Vm.VirtualMachine.ClearKeyState | chip8/src/lib.rs:460-462 | every key flag is released |
| Chip8Vm.VirtualMachine.DecrementTimers | chip8/src/lib.rs:464-467 | both timers tick once, saturating at 0, nothing else changes |
| Chip8Vm.VirtualMachine.ScreenRows | chip8/src/lib.rs:456-458 | the rows are the screen's 32 chunks of 64: pixel c of row r is screen[64·r + c] |
| LegacyVm.VirtualMachine.constructor | src/chip8/mod.rs:18-37 | a new object holds the state `new()` builds, the same as in the current engine |
| LegacyVm.VirtualMachine.LoadRom | src/chip8/mod.rs:39-43 | the copy loop leaves memory as the legacy load specifies, or reports the panic of a program longer than 3584 bytes |
| LegacyVm.VirtualMachine.FetchOpcode | src/chip8/mod.rs:55-59 | the word memory[pc]·256 + memory[pc + 1], present exactly when both bytes are in memory |
| LegacyVm.VirtualMachine.RunCycle | src/chip8/mod.rs:45-53 | the object ends in the state one legacy cycle computes (opcode, then the tick), or reports the panic |
| LegacyVm.VirtualMachine.ExecuteOpcode | src/chip8/mod.rs:61-220 | the object ends in the state the legacy opcode computes, or reports its panic |
| LegacyVm.VirtualMachine.SkipIf | src/chip8/mod.rs:91-123 | the counter moves by 4 when the condition holds and by 2 otherwise |
| LegacyVm.VirtualMachine.ExecuteFlow | src/chip8/mod.rs:63-123 | 00E0, 00EE, 1NNN, 2NNN, 3XNN, 4XNN and 5XY0 update the object as the legacy model says |
| LegacyVm.VirtualMachine.ExecuteControl | src/chip8/mod.rs:63-90 | 00E0, 00EE, 1NNN and 2NNN update the object as the legacy model says |
| LegacyVm.VirtualMachine.ExecuteRegisters | src/chip8/mod.rs:124-151 | 6XNN, the saturating 7XNN, FX07 and the key-keeping FX0A update the object as the legacy model says |
| LegacyVm.VirtualMachine.ExecuteTimers | src/chip8/mod.rs:153-188 | FX15 and FX18 set a timer from VX and advance the counter, as the legacy model says |
| LegacyVm.VirtualMachine.ExecuteIndex | src/chip8/mod.rs:189-203 | FX1E and FX29 update the index as the legacy model says, panicking on index overflow and on a digit above 0xF |
| LegacyVm.VirtualMachine.ExecuteMemory | src/chip8/mod.rs:160-215 | FX55, FX65 and the FX33 as written update the object as the legacy model says |
| LegacyVm.VirtualMachine.ExecuteStoreDecimal | src/chip8/mod.rs:204-215 | FX33 as written leaves memory as `Legacy.StoreBcdAsWritten` says, or panics when I + 2 is outside memory |
| LegacyVm.VirtualMachine.CompleteFx0a | src/chip8/mod.rs:228-236 | the object ends in the state the current engine's completion computes, since the two are the same code |

## Left out

- The frontends (`chip8-frontend`, `chip8-bin`, `src/main.rs`) are not part of this
  model. They contain windowing, rendering, frame pacing, the file dialog, key mapping
  and the `Arc<Mutex>` sharing. When to call `complete_fx0a` is their policy.
- The `font` module is not part of this model, and neither are its bytes.
  `MachineState.InitialWithFont` takes the font as a parameter.
- `chip8/src/test.rs` is not modelled. It tests a `reset` method and an equality that
  `lib.rs` does not define.
- Randomness: the byte `fastrand` draws for CXNN is the parameter `rnd`. All that is
  stated about CXNN is that VX becomes `rnd & NN`.
- Panic messages: a panic is an `Outcome.Panic` with the kind of fault, not the message.
- Chip8Vm.VirtualMachine.ExecuteInstruction: on a panic the object is stated to be
  unchanged. The Rust code can write before it panics: DXYN's `VF = 0` and the rows it
  drew before an out-of-range sprite byte, `memory[I]` and `memory[I + 1]` before the
  FX33 index panic, the legacy FX33's two writes to `memory[I]` before its I + 2 index
  panic, and the first 3584 bytes of a too-long program in the legacy `load_rom`. Those writes
  are not modelled because a panic ends the process. The same holds for
  Chip8Vm.VirtualMachine.ExecuteOpcode, LegacyVm.VirtualMachine.RunCycle,
  LegacyVm.VirtualMachine.ExecuteOpcode and LegacyVm.VirtualMachine.LoadRom.
- FX1E overflow: the index register passing 0xFFFF is an `IndexOverflow` panic, as in a
  debug build. Wrap-around in a release build is not modelled. The counter's `+= 2`
  cannot overflow in the model: the executed opcode was fetched below 0x1000, and every
  stack entry is a fetched counter.
- `get_pixel_mut` returns a mutable reference. It is modelled as the index it computes
  (`MachineState.PixelIndex`).
- `screen_rows` returns an iterator over slices. It is modelled as the sequence of those
  rows.
- `key_state` and `blocked_on_key_press` are public fields that callers may write. They
  are part of the state. No method models a caller's write to them.
- The current engine's FX33 `assert!(i + 2 <= len)` accepts I = 4094, and the write to
  I + 2 then panics on the index. Either way the outcome is a panic exactly when
  I + 2 ≥ 4096, so the model does not tell the two panics apart.

## Findings

| source | as written | input that shows it | evidently intended | confidence | as-written member | corrected member |
|---|---|---|---|---|---|---|
| src/chip8/mod.rs:204-215 | FX33 writes the hundreds digit to `memory[I]` and then overwrites it with the tens digit, never writing `memory[I + 1]` | VX = 123 with 0 at I + 1 leaves 2, 0, 3 at I..I + 2 (`Legacy.BcdCounterexample`; `Legacy.AsWrittenAgreement` says exactly when it is harmless) | hundreds, tens and units at I, I + 1, I + 2, as the current engine does | not executed | Legacy.StoreBcdAsWritten | MachineState.StoreBcd |
| chip8/src/lib.rs:21-40 | `new()` copies the font set into a local array and then builds the machine from a fresh zero array, so the font is dropped (the same in src/chip8/mod.rs:18-37) | after `new()`, FX29 for any digit followed by DXY5 draws nothing (`Sprite.GlyphsBlank`) | the font at addresses 0 to 79, so that FX29 points at the glyph (`MachineState.GlyphsLoaded`) | not executed | MachineState.Initial | MachineState.InitialWithFont |

The legacy engine model keeps its FX33 as written, since it models that code. The
correct store, `MachineState.StoreBcd`, is the one the current engine uses, and
`Chip8.DecimalDigits` proves it.

The class constructors keep the zero memory of the code as written.
`MachineState.InitialWithFont` is the intended initial state, and
`MachineState.GlyphsLoaded` proves its glyph property.
