# virtual-cpu: the Intel 8080 core and the gbz80 dispatcher, in Dafny

This project models the instruction-level core of `virtual-cpu`, an
emulator library written in Rust. The model covers:

- the 8080 machine: 64 KiB of memory, the stack, the program counter and
  its instruction-length table, the register file with its flags, the
  instruction helpers, and the `State` struct that ties them together;
- the 8080 dispatcher, `emulate_instruction`, with its two match groups,
  `mov_for`, `operate8` and the cycle table;
- the Game Boy (gbz80) dispatcher, which runs on the same 8080 state.

Each piece of state is modelled twice.

- A value (`Machine`, `RegisterFile`, `StackState`, `Counter`, `Ram`) holds
  the pure functions that say what each operation does.
- A class (`State8080`, `Registers8080`, `Stack8080`, `Program8080`,
  `Memory8080`) mirrors the mutable Rust struct. Each of its methods is
  proved to turn its old value into the value the matching function gives.

One call of `emulate_instruction` is `Cpu8080.Step` (8080) or
`CpuGb.StepGb` (gbz80). `Step` decodes the opcode at pc into a match arm
(`Instr`), and `Run` then does three things:

- it fetches the instruction;
- it applies the arm;
- it advances pc and reports the cycle count from the table.

`Emulate` and `EmulateGb` perform the same step on a `State8080` in place.

An arm has one of three results:

- it finishes within the model;
- it stops at a call into a `State` primitive whose source is not part of
  this model, returned as a `Deferred` outcome that names the call;
- it panics (`Faulted`).

Behaviour is modelled as the code is written, including these quirks:

- STAX B (8080 0x02) and LD (BC),A (gbz80 0x02) store register B, not A.
- The 8080's undocumented opcodes alias documented ones: 0xcb is JMP, 0xd9
  is RET, and 0xdd, 0xed and 0xfd are CALL.
- The gbz80's RST 38 (0xff) jumps to 0x30, and its CCF (0x3f) clears the
  carry instead of complementing it.
- The gbz80 dispatcher fetches through the 8080 length table. As a result:
  - LDI/LDD (0x22, 0x2a, 0x32, 0x3a) advance pc by three;
  - LD (nn),SP (0x08) is fetched as one byte, so reading its operand panics.
- Arithmetic on `u8`/`u16` wraps around, as in a release build.
- Port input (`Machine::input`) is a parameter of an 8080 step. The gbz80
  dispatcher takes no `Machine` and has no IN or OUT arm, so its step takes
  no input. Port output is returned as an `Io` value.

## Model

| member | source | states |
|---|---|---|
| Bytes.AssembleWord | virtual-cpu-8080/src/instructions.rs:34-36 | the high and low bytes of the assembled word are the two bytes it was built from |
| Bytes.WordOfBytes | virtual-cpu-8080/src/stack.rs:38-43 | reassembling a word's high and low bytes gives the word back |
| Bytes.Wrap8 | virtual-cpu-8080/src/cpu.rs:136 | a u8 result differs from the exact result by a multiple of 256 (release wrap-around) |
| Bytes.Add16 | virtual-cpu-8080/src/program.rs:54-57 | a u16 sum differs from the exact sum by a multiple of 2^16 |
| Bytes.Add16Twice | virtual-cpu-8080/src/stack.rs:28-36 | two wrapping additions to a u16 equal one wrapping addition of their total |
| Bytes.Add16Undo | virtual-cpu-8080/src/stack.rs:28-36 | subtracting k and then adding k back restores any u16 |
| Bytes.BoolByte | virtual-cpu-8080/src/flags.rs:39-45 | `b as u8` is 1 exactly when b holds, and 0 otherwise |
| Flags.Flags8080.SetZ | virtual-cpu-8080/src/flags.rs:17-19 | z holds exactly when n is zero; no other flag changes |
| Flags.Flags8080.SetS | virtual-cpu-8080/src/flags.rs:21-23 | s holds exactly when bit 7 of n is set; no other flag changes |
| Flags.Flags8080.SetP | virtual-cpu-8080/src/flags.rs:25-27 | p holds exactly when n has an even number of one bits; no other flag changes |
| Flags.Flags8080.SetFlagsNoCarry | virtual-cpu-8080/src/flags.rs:29-33 | z, s and p describe the result; cy and ac are unchanged |
| Flags.Flags8080.Serialize | virtual-cpu-8080/src/flags.rs:39-45 | bits 0 to 4 are z, s, p, cy and ac, and every higher bit is clear |
| Flags.Flags8080.Deserialize | virtual-cpu-8080/src/flags.rs:47-53 | each flag is read from its bit (0 to 4) of the byte |
| Flags.DeserializeSerialize | virtual-cpu-8080/src/flags.rs:39-53 | deserializing a serialized flag set gives the same flags, whatever the flags it overwrites |
| Flags.SerializeDeserialize | virtual-cpu-8080/src/flags.rs:39-53 | serializing deserialized flags keeps the low five bits of the byte and clears the rest |
| Flags.SetFlagsNoCarryExamples | virtual-cpu-8080/src/flags.rs:61-74 | the unit test's two cases: 0 sets z and p and clears s; then 0xf0 clears z and sets s and p |
| Memory.WordAt | virtual-cpu-core/src/memory.rs:10-12 | the word's low byte is at addr and its high byte at addr + 1, wrapping |
| Memory.WithWord | virtual-cpu-core/src/memory.rs:15-18 | the low byte is written at addr and the high byte at addr + 1; every other cell is unchanged |
| Memory.WordRoundTrip | virtual-cpu-core/src/memory.rs:10-18 | get_word after set_word at the same address returns the stored word |
| Memory.WordRewrite | virtual-cpu-core/src/memory.rs:10-18 | writing back the word just read leaves memory unchanged |
| Memory.WordOverwrite | virtual-cpu-core/src/memory.rs:10-18 | a second set_word at the same address replaces the first entirely |
| Memory.Memory8080.constructor | virtual-cpu-8080/src/memory.rs:9-11 | new memory is 65536 zero bytes |
| Memory.Memory8080.GetByte | virtual-cpu-8080/src/memory.rs:23-25 | returns the byte at addr |
| Memory.Memory8080.SetByte | virtual-cpu-8080/src/memory.rs:27-29 | the contents become the old contents with addr set to val |
| Memory.Memory8080.GetWord | virtual-cpu-core/src/memory.rs:10-12 | returns `WordAt` of the contents |
| Memory.Memory8080.SetWord | virtual-cpu-core/src/memory.rs:15-18 | the contents become `WithWord` of the old contents |
| Memory.Memory8080.Load | virtual-cpu-8080/src/memory.rs:31-34 | data replaces the cells from base onwards; the cells before and after it are unchanged |
| Memory.Memory8080.View | virtual-cpu-8080/src/memory.rs:36-38 | returns the end + 1 - start bytes from start to end, inclusive |
| Registers.RegisterFile.Get8 | virtual-cpu-8080/src/registers.rs:48-58 | reads the register's field; it has no contract of its own, because `With8` and `With16` state in its terms what a store reads back |
| Registers.RegisterFile.With8 | virtual-cpu-8080/src/registers.rs:60-70 | the named register gets val; the other registers and the flags are unchanged |
| Registers.RegisterFile.Get16 | virtual-cpu-8080/src/registers.rs:76-82 | a pair's high byte is its first register and its low byte its second |
| Registers.RegisterFile.With16 | virtual-cpu-8080/src/registers.rs:84-99 | the pair reads back val, split into its two registers; the other registers and the flags are unchanged |
| Registers.RegisterFile.Update8 | virtual-cpu-core/src/registers.rs:6-8 | the register gets updater applied to its old value; nothing else changes |
| Registers.RegisterFile.Update16 | virtual-cpu-core/src/registers.rs:16-18 | the pair gets updater applied to its old value; registers outside the pair and the flags are unchanged |
| Registers.RegisterFile.SetFlagsFromR8 | virtual-cpu-8080/src/registers.rs:40-42 | z, s and p describe the register's value; the registers, cy and ac are unchanged |
| Registers.Registers8080.Get8 | virtual-cpu-8080/src/registers.rs:48-58 | storing the byte read back with `set8` changes nothing |
| Registers.Registers8080.Get16 | virtual-cpu-8080/src/registers.rs:76-82 | storing the word read back with `set16` changes nothing |
| Registers.PairIsView | virtual-cpu-8080/src/registers.rs:76-82 | writing either half of a pair changes the pair's word in that byte only |
| Registers.PairsIndependent | virtual-cpu-8080/src/registers.rs:84-99 | writing one pair leaves every other pair's word unchanged |
| Registers.Registers8080.constructor | virtual-cpu-8080/src/registers.rs:36-38 | new registers are all zero and all flags are clear |
| Registers.Registers8080.Set8 | virtual-cpu-8080/src/registers.rs:60-70 | the register file becomes `With8` of the old one |
| Registers.Registers8080.Set16 | virtual-cpu-8080/src/registers.rs:84-99 | the register file becomes `With16` of the old one |
| Registers.Registers8080.Update8 | virtual-cpu-core/src/registers.rs:6-8 | the register file becomes `Update8` of the old one |
| Registers.Registers8080.Update16 | virtual-cpu-core/src/registers.rs:16-18 | the register file becomes `Update16` of the old one |
| Registers.Registers8080.SetFlagsFromR8 | virtual-cpu-8080/src/registers.rs:40-42 | the register file becomes `SetFlagsFromR8` of the old one |
| Stack.StackState.PushByte | virtual-cpu-8080/src/stack.rs:33-36 | sp drops by one (wrapping) and the byte is stored at the new sp |
| Stack.StackState.PopByte | virtual-cpu-8080/src/stack.rs:28-31 | returns the byte at sp; sp rises by one and memory is unchanged |
| Stack.StackState.PushWord | virtual-cpu-8080/src/stack.rs:45-48 | sp drops by two (wrapping) and the word is stored little-endian at the new sp, as `set_word` would store it |
| Stack.StackState.PopWord | virtual-cpu-8080/src/stack.rs:38-43 | returns the little-endian word at sp; sp rises by two and memory is unchanged |
| Stack.PushPopWord | virtual-cpu-8080/src/stack.rs:38-48 | popping right after a push returns the pushed word and restores sp |
| Stack.PopPushWord | virtual-cpu-8080/src/stack.rs:38-48 | pushing back a word just popped restores the whole stack state |
| Stack.Stack8080.constructor | virtual-cpu-8080/src/stack.rs:12-14 | a new stack pointer is zero |
| Stack.Stack8080.SetSp | virtual-cpu-8080/src/stack.rs:24-26 | sp becomes val |
| Stack.Stack8080.GetSp | virtual-cpu-8080/src/stack.rs:21-23 | returns the stack pointer as `set_sp` and the pushes and pops left it |
| Stack.Stack8080.PopByte | virtual-cpu-8080/src/stack.rs:28-31 | returns what `StackState.PopByte` does, and sp becomes its new sp |
| Stack.Stack8080.PushByte | virtual-cpu-8080/src/stack.rs:33-36 | sp and memory become `StackState.PushByte` of the old ones |
| Stack.Stack8080.PopWord | virtual-cpu-8080/src/stack.rs:38-43 | returns what `StackState.PopWord` does, and sp becomes its new sp |
| Stack.Stack8080.PushWord | virtual-cpu-8080/src/stack.rs:45-48 | sp and memory become `StackState.PushWord` of the old ones |
| Program.InstructionLength | virtual-cpu-8080/src/program.rs:8-25 | every instruction is one to three bytes long |
| Program.LengthFromLayout | virtual-cpu-8080/src/program.rs:8-25 | the table is the 8080 operand layout: one operand byte for MVI, the immediate arithmetic, OUT and IN; two for LXI, SHLD, LHLD, STA, LDA, the conditional jumps and calls, JMP, CALL and their aliases |
| Program.Counter.GetInstruction | virtual-cpu-8080/src/program.rs:48-52 | records the opcode's length; the fetch succeeds exactly when the instruction ends within memory, and then returns those bytes from pc on |
| Program.Counter.Advance | virtual-cpu-8080/src/program.rs:54-57 | pc moves past the recorded length, wrapping, and the length is reset |
| Program.Counter.Jump | virtual-cpu-8080/src/program.rs:59-62 | pc becomes addr and a following advance stays there |
| Program.CallThenRet | virtual-cpu-8080/src/program.rs:64-71 | a ret right after a call returns to the address after the calling instruction and restores sp |
| Program.Counter.Call | virtual-cpu-8080/src/program.rs:64-67 | pc becomes addr with no length recorded; the stack becomes the old one with the address of the next instruction pushed (so memory outside the two pushed cells is unchanged); sp drops by two and the word at the new sp is that address |
| Program.Counter.Ret | virtual-cpu-8080/src/program.rs:69-71 | pc becomes the word at sp with no length recorded; sp rises by two and memory is unchanged |
| Program.Program8080.constructor | virtual-cpu-8080/src/program.rs:34-36 | pc and the recorded length start at zero |
| Program.Program8080.GetPc | virtual-cpu-8080/src/program.rs:44-46 | returns the pc of the counter's value |
| Program.Program8080.GetInstruction | virtual-cpu-8080/src/program.rs:48-52 | returns and records what `Counter.GetInstruction` does |
| Program.Program8080.Advance | virtual-cpu-8080/src/program.rs:54-57 | the counter becomes `Counter.Advance` of the old one |
| Program.Program8080.Jump | virtual-cpu-8080/src/program.rs:59-62 | the counter becomes `Counter.Jump` of the old one |
| Program.Program8080.Call | virtual-cpu-8080/src/program.rs:64-67 | counter, sp and memory become `Counter.Call` of the old ones |
| Program.Program8080.Ret | virtual-cpu-8080/src/program.rs:69-71 | counter and sp become `Counter.Ret` of the old ones |
| State.Machine.MovRr8 | virtual-cpu-8080/src/state.rs:31-33 | dest receives src; only dest changes |
| State.Machine.MovRi8 | virtual-cpu-8080/src/state.rs:35-37 | dest receives val; only dest changes |
| State.Machine.MovRp8 | virtual-cpu-8080/src/state.rs:39-41 | dest receives the byte at the pair's address; only dest changes |
| State.Machine.MovRa8 | virtual-cpu-8080/src/state.rs:43-45 | dest receives the byte at src; only dest changes |
| State.Machine.MovPr8 | virtual-cpu-8080/src/state.rs:47-49 | the byte at the pair's address becomes src; only memory changes |
| State.Machine.GetIndirect8 | virtual-cpu-8080/src/cpu.rs:26 | storing the byte read back through the same pair with `mov_pi8` changes nothing |
| State.Machine.MovAr8 | virtual-cpu-8080/src/state.rs:51-53 | the byte at dest becomes src; only memory changes |
| State.Machine.MovRr16 | virtual-cpu-8080/src/state.rs:55-57 | the dest pair receives the src pair; only that pair changes |
| State.Machine.MovRi16 | virtual-cpu-8080/src/state.rs:59-61 | the dest pair receives val; only that pair changes |
| State.Machine.MovRp16 | virtual-cpu-8080/src/state.rs:63-65 | the dest pair receives the word at the src pair's address; only that pair changes |
| State.Machine.MovRa16 | virtual-cpu-8080/src/state.rs:67-69 | the dest pair receives the word at src; only that pair changes |
| State.Machine.MovPr16 | virtual-cpu-8080/src/state.rs:71-73 | the word at the dest pair's address becomes the src pair; only those two cells change |
| State.Machine.MovAr16 | virtual-cpu-8080/src/state.rs:75-77 | the word at dest becomes the src pair; only those two cells change |
| State.Machine.MovPi8 | virtual-cpu-8080/src/cpu.rs:170 | the byte at the pair's address becomes val; only memory changes |
| State.Machine.JumpA | virtual-cpu-8080/src/state.rs:84-86 | pc becomes addr and the length is reset; nothing else changes |
| State.Machine.CallA | virtual-cpu-8080/src/state.rs:88-90 | pushes the return address (pc plus length) two bytes below sp and jumps to addr; the registers are unchanged |
| State.Machine.Ret | virtual-cpu-8080/src/state.rs:92-94 | pc becomes the word at sp and sp rises by two |
| State.Machine.PushWord | virtual-cpu-8080/src/cpu.rs:207-213 | sp drops by two and the word is stored there; only sp and memory change |
| State.Machine.PopWord | virtual-cpu-8080/src/cpu.rs:207-213 | returns the word at sp and raises sp by two; nothing else changes |
| State.Machine.GetInstruction | virtual-cpu-8080/src/cpu.rs:241 | the program counter's fetch on the machine's memory; only the recorded length changes |
| State.Machine.Advance | virtual-cpu-8080/src/cpu.rs:253 | pc moves past the recorded length and the length is reset |
| State.Machine.LogicalOperationRr | virtual-cpu-8080/src/state.rs:98-105 | A receives operation(A, src), z, s and p describe the result, and no other register, cy or ac changes |
| State.StoreLoadPair | virtual-cpu-8080/src/state.rs:67-77 | loading a pair from the address it was just stored at gives back the same registers |
| State.StoreLoadByte | virtual-cpu-8080/src/state.rs:39-49 | loading through the pointer just stored through gives back the stored register |
| State.State8080.constructor | virtual-cpu-8080/src/state.rs:20-27 | a new state is zero memory, sp, pc and registers, with clear flags |
| State.State8080.MovRr8 | virtual-cpu-8080/src/state.rs:31-33 | the state becomes `Machine.MovRr8` of the old one |
| State.State8080.MovRi8 | virtual-cpu-8080/src/state.rs:35-37 | the state becomes `Machine.MovRi8` of the old one |
| State.State8080.MovRp8 | virtual-cpu-8080/src/state.rs:39-41 | the state becomes `Machine.MovRp8` of the old one |
| State.State8080.MovRa8 | virtual-cpu-8080/src/state.rs:43-45 | the state becomes `Machine.MovRa8` of the old one |
| State.State8080.MovPr8 | virtual-cpu-8080/src/state.rs:47-49 | the state becomes `Machine.MovPr8` of the old one |
| State.State8080.MovAr8 | virtual-cpu-8080/src/state.rs:51-53 | the state becomes `Machine.MovAr8` of the old one |
| State.State8080.MovRr16 | virtual-cpu-8080/src/state.rs:55-57 | the state becomes `Machine.MovRr16` of the old one |
| State.State8080.MovRi16 | virtual-cpu-8080/src/state.rs:59-61 | the state becomes `Machine.MovRi16` of the old one |
| State.State8080.MovRp16 | virtual-cpu-8080/src/state.rs:63-65 | the state becomes `Machine.MovRp16` of the old one |
| State.State8080.MovRa16 | virtual-cpu-8080/src/state.rs:67-69 | the state becomes `Machine.MovRa16` of the old one |
| State.State8080.MovPr16 | virtual-cpu-8080/src/state.rs:71-73 | the state becomes `Machine.MovPr16` of the old one |
| State.State8080.MovAr16 | virtual-cpu-8080/src/state.rs:75-77 | the state becomes `Machine.MovAr16` of the old one |
| State.State8080.GetIndirect8 | virtual-cpu-8080/src/cpu.rs:26 | returns the byte at the pair's address |
| State.State8080.MovPi8 | virtual-cpu-8080/src/cpu.rs:170 | the state becomes `Machine.MovPi8` of the old one |
| State.State8080.TestFlags | virtual-cpu-8080/src/state.rs:80-82 | returns the predicate applied to the current flags |
| State.State8080.JumpA | virtual-cpu-8080/src/state.rs:84-86 | the state becomes `Machine.JumpA` of the old one |
| State.State8080.CallA | virtual-cpu-8080/src/state.rs:88-90 | the state becomes `Machine.CallA` of the old one |
| State.State8080.Ret | virtual-cpu-8080/src/state.rs:92-94 | the state becomes `Machine.Ret` of the old one |
| State.State8080.PushWord | virtual-cpu-8080/src/cpu.rs:211 | the state becomes `Machine.PushWord` of the old one |
| State.State8080.PopWord | virtual-cpu-8080/src/cpu.rs:209 | returns what `Machine.PopWord` does, and the state becomes its new state |
| State.State8080.GetInstruction | virtual-cpu-8080/src/cpu.rs:241 | returns what `Machine.GetInstruction` does, and the state becomes its new state |
| State.State8080.LogicalOperationRr | virtual-cpu-8080/src/state.rs:98-105 | the state becomes `Machine.LogicalOperationRr` of the old one |
| Instructions.FieldMasks | virtual-cpu-8080/src/cpu.rs:33-34 | the masks `& 0x07`, `(>> 3) & 0x07`, `& 0x3f` and `& 0x38` pick out the opcode's bit fields |
| Instructions.RegisterForCode | virtual-cpu-8080/src/instructions.rs:6-18 | the register named by the code's low three bits: B, C, D, E, H, L for 0 to 5 and A for 7 |
| Instructions.RegisterCodeRoundTrip | virtual-cpu-8080/src/instructions.rs:6-18 | decoding a register's code gives the register back |
| Instructions.PredicateFor | virtual-cpu-8080/src/instructions.rs:20-32 | the condition selected by bits 3 to 5 of the opcode |
| Instructions.WordArgFrom | virtual-cpu-8080/src/instructions.rs:34-36 | the operand word is little-endian: its low byte is instruction[1] and its high byte instruction[2] |
| Instructions.ByteArgFrom | virtual-cpu-8080/src/instructions.rs:38-40 | byte 1 of any instruction of two or more bytes: the low byte of the word operand formed from its first two bytes |
| Instructions.Signed8 | virtual-cpu-8080/src/instructions.rs:43 | `offset as i8` lies in -128..127 and agrees with the byte modulo 256 |
| Instructions.ApplyOffset | virtual-cpu-8080/src/instructions.rs:42-44 | adds the signed offset to base, wrapping below 0 and above 0xffff |
| Instructions.ApplyOffsetInverse | virtual-cpu-8080/src/instructions.rs:42-44 | applying the negated offset undoes an offset, for every offset except -128 |
| Instructions.And8 | virtual-cpu-8080/src/instructions.rs:46-48 | each result bit is the AND of the operands' bits |
| Instructions.Xor8 | virtual-cpu-8080/src/instructions.rs:50-52 | each result bit is the XOR of the operands' bits |
| Instructions.Or8 | virtual-cpu-8080/src/instructions.rs:54-56 | each result bit is the OR of the operands' bits |
| Instructions.Inc8 | virtual-cpu-8080/src/instructions.rs:58-60 | n + 1, except that 0xff wraps to 0 |
| Instructions.Inc16 | virtual-cpu-8080/src/instructions.rs:62-64 | n + 1, except that 0xffff wraps to 0 |
| Instructions.Dec8 | virtual-cpu-8080/src/instructions.rs:66-68 | the value that inc8 takes to n |
| Instructions.Dec16 | virtual-cpu-8080/src/instructions.rs:70-72 | the value that inc16 takes to n |
| Instructions.IncDec8 | virtual-cpu-8080/src/instructions.rs:58-68 | dec8 undoes inc8 |
| Instructions.IncDec16 | virtual-cpu-8080/src/instructions.rs:62-72 | dec16 undoes inc16 |
| Instructions.Not8 | virtual-cpu-8080/src/cpu.rs:149 | `!a` flips each of the eight bits |
| Instructions.ShiftLeft8 | virtual-cpu-8080/src/cpu.rs:109 | `x << 1` moves each bit up by one, drops bit 7 and clears bit 0 |
| Instructions.ShiftRight8 | virtual-cpu-8080/src/cpu.rs:122 | `x >> 1` moves each bit down by one, drops bit 0 and clears bit 7 |
| Instructions.RotateLeft8 | virtual-cpu-8080/src/cpu.rs:82 | `rotate_left(1)` moves bit 7 to bit 0 and every other bit up by one |
| Instructions.RotateRight8 | virtual-cpu-8080/src/cpu.rs:95 | `rotate_right(1)` moves bit 0 to bit 7 and every other bit down by one |
| Instructions.RotateInverse | virtual-cpu-8080/src/cpu.rs:79-97 | rotating right undoes rotating left, and rotating left undoes rotating right |
| Dispatch.RotateLeftCircular | virtual-cpu-8080/src/cpu.rs:79-84 | RLC: A is rotated left and the carry receives the old bit 7; only A and the carry change |
| Dispatch.RotateRightCircular | virtual-cpu-8080/src/cpu.rs:92-97 | RRC: A is rotated right and the carry receives the old bit 0; only A and the carry change |
| Dispatch.RotateLeftThroughCarry | virtual-cpu-8080/src/cpu.rs:106-111 | RAL: the old carry enters bit 0, the other bits move up, and bit 7 leaves into the carry |
| Dispatch.RotateRightThroughCarry | virtual-cpu-8080/src/cpu.rs:119-124 | RAR: the old carry enters bit 7, the other bits move down, and bit 0 leaves into the carry |
| Dispatch.RotateThroughCarryInverse | virtual-cpu-8080/src/cpu.rs:106-124 | RAR after RAL restores the whole register file |
| Dispatch.RotateCircularInverse | virtual-cpu-8080/src/cpu.rs:79-97 | RRC after RLC, and RLC after RRC, restore A |
| Dispatch.DecimalAdjustLow | virtual-cpu-8080/src/cpu.rs:135-137 | 6 is added to A, wrapping, exactly when A's low nibble exceeds 9; nothing else changes |
| Dispatch.DecimalAdjustHigh | virtual-cpu-8080/src/cpu.rs:138 | `(A & 0xf0) > 0x90` holds exactly when A's high nibble exceeds 9 |
| Dispatch.Exchange | virtual-cpu-8080/src/cpu.rs:214-218 | XCHG: DE and HL swap; BC, A and the flags are unchanged |
| Dispatch.ExchangeTwice | virtual-cpu-8080/src/cpu.rs:214-218 | two XCHGs restore the register file |
| Dispatch.ExchangeTop | virtual-cpu-8080/src/cpu.rs:207-213 | XTHL: HL receives the word on top of the stack, and that word becomes the old HL; memory is the old memory with only that word rewritten; sp, pc, the flags and the other registers are unchanged |
| Dispatch.ExchangeTopTwice | virtual-cpu-8080/src/cpu.rs:207-213 | two XTHLs restore the whole machine |
| Dispatch.Apply | virtual-cpu-8080/src/cpu.rs:68-238 | an arm whose operand bytes are missing from the fetched instruction panics and leaves the machine unchanged, and every panic leaves it unchanged |
| Dispatch.ApplyTransfer | virtual-cpu-8080/src/cpu.rs:68-238 | a panic in a register or memory transfer arm leaves the machine unchanged |
| Dispatch.TransferStatus | virtual-cpu-8080/src/cpu.rs:32-42 | a transfer arm panics exactly at HLT or an unimplemented opcode, never defers, and leaves pc alone |
| Dispatch.ApplyAccumulator | virtual-cpu-8080/src/cpu.rs:79-182 | the accumulator and carry arms never panic |
| Dispatch.AccumulatorStatus | virtual-cpu-8080/src/cpu.rs:133-141 | of the accumulator arms only DAA defers, and none moves pc |
| Dispatch.ApplyDeferred | virtual-cpu-8080/src/cpu.rs:187-238 | an arm that only calls a primitive outside the model hands that call over and changes nothing |
| Dispatch.ApplyControl | virtual-cpu-8080/src/cpu.rs:187-238 | the control-flow, stack and port arms always complete |
| Dispatch.ControlStatus | virtual-cpu-8080/src/cpu.rs:187-238 | a control arm that is not a branch leaves pc alone |
| Dispatch.ApplyStatus | virtual-cpu-8080/src/cpu.rs:58-66 | an arm panics exactly at missing operands, HLT or an unimplemented opcode; only the deferred arms and DAA defer; only branches move pc |
| Dispatch.MemoryIncDec | virtual-cpu-8080/src/cpu.rs:158-169 | INR M / DCR M move the byte at HL by one, wrapping; z, s and p describe the new byte; carries, registers, sp and pc are unchanged |
| Dispatch.ComplementTwice | virtual-cpu-8080/src/cpu.rs:149-182 | CMA flips each bit of A and nothing else, and two CMAs restore the machine; CMC flips the carry and leaves every register, the other flags, memory, sp and pc unchanged, and two CMCs restore the machine |
| Dispatch.ApplySetCarry | virtual-cpu-8080/src/cpu.rs:171 | STC sets the carry and leaves every register, the other flags, memory, sp and pc unchanged; a second STC changes nothing |
| Dispatch.ApplyStore | virtual-cpu-8080/src/cpu.rs:74 | a store arm performs `mov_pr8` and completes |
| Dispatch.ApplyCall | virtual-cpu-8080/src/cpu.rs:227 | CALL performs `call_a` on its operand word |
| Dispatch.ApplyRestart | virtual-cpu-8080/src/cpu.rs:235 | RST performs `call_a` on its vector |
| Dispatch.ApplyReturn | virtual-cpu-8080/src/cpu.rs:193 | RET performs `ret` |
| Dispatch.ApplyStoreStep | virtual-cpu-gbz80/src/cpu.rs:127-131 | LDI/LDD (HL),A store A at HL and step HL by one, wrapping; the other registers, the flags, sp and pc are unchanged |
| Dispatch.ApplyLoadStep | virtual-cpu-gbz80/src/cpu.rs:147-151 | LDI/LDD A,(HL) load A from HL and step HL by one, wrapping; memory, the flags, sp and pc are unchanged |
| Dispatch.ApplyClearCarry | virtual-cpu-gbz80/src/cpu.rs:191 | the gbz80's CCF clears the carry and changes nothing else |
| Dispatch.Execute | virtual-cpu-8080/src/cpu.rs:244-251 | performing an arm on a `State8080` yields the status, new state and port traffic of `Apply` |
| Dispatch.ExecuteTransfer | virtual-cpu-8080/src/cpu.rs:68-238 | performing a transfer arm in place yields `ApplyTransfer` |
| Dispatch.ExecuteAccumulator | virtual-cpu-8080/src/cpu.rs:79-182 | performing an accumulator arm in place yields `ApplyAccumulator` |
| Dispatch.ExecuteRotate | virtual-cpu-8080/src/cpu.rs:79-124 | the four rotates performed in place yield `ApplyAccumulator` |
| Dispatch.ExecuteDeferred | virtual-cpu-8080/src/cpu.rs:187-238 | a deferred arm in place yields `ApplyDeferred` and leaves the state unchanged |
| Dispatch.ExecuteControl | virtual-cpu-8080/src/cpu.rs:187-238 | performing a control arm in place yields `ApplyControl` |
| Emulation.OperandFor | virtual-cpu-8080/src/cpu.rs:23-30 | operand code 6 selects the byte at HL; any other code selects the register with that code |
| Emulation.MoveFor | virtual-cpu-8080/src/cpu.rs:32-42 | HLT exactly when both fields are 6; otherwise a load through HL, a store through HL or a register move, with registers named by the fields |
| Emulation.AluOpFor | virtual-cpu-8080/src/cpu.rs:44-56 | the operation is the one numbered by bits 3 to 5 |
| Emulation.Finish | virtual-cpu-8080/src/cpu.rs:253-254 | the outcome is `Executed` exactly when the arm completed, with the given cycles and the arm's port traffic, and only then does pc step over the instruction; it is `Faulted` exactly on a panic; a deferred arm or a panic leaves the machine as the arm left it |
| Emulation.Run | virtual-cpu-8080/src/cpu.rs:240-255 | a fetch past the end of memory faults; a completed or deferred step reports the given cycles; a completed step leaves no length recorded; a panic changes nothing but the recorded length |
| Emulation.RunIgnoresInput | virtual-cpu-8080/src/cpu.rs:206 | only the IN arm reads the port byte: any other arm runs the same whatever `input` returns |
| Emulation.FinishStep | virtual-cpu-8080/src/cpu.rs:253-254 | a completed arm advances pc and reports the table's cycles; a deferred arm or a panic leaves pc unchanged |
| Cpu8080.Emulate | virtual-cpu-8080/src/cpu.rs:240-255 | one `emulate_instruction` on a `State8080` produces the outcome and new state of `Step` |
| Cpu8080.DecodeByGroup | virtual-cpu-8080/src/cpu.rs:244-251 | opcodes below 0x40 go to group 0, up to 0x7f to `mov_for`, up to 0xbf to `operate8`, and the rest to group 3 |
| Cpu8080.Timing | virtual-cpu-8080/src/cpu.rs:7-21 | every opcode takes between 4 and 18 cycles |
| Cpu8080.Step | virtual-cpu-8080/src/cpu.rs:240-255 | a fetch past the end of memory faults; a step that completes or defers reports the opcode's `OPCODE_TIMING` cycles; a panic changes nothing but the recorded length |
| Cpu8080.Decode | virtual-cpu-8080/src/cpu.rs:240-251 | every opcode has an arm, only HLT (0x76) panics as unimplemented, and every arm finds the operand bytes it reads in the fetched instruction |
| Cpu8080.Group0 | virtual-cpu-8080/src/cpu.rs:68-185 | every group-0 arm is implemented and none is HLT |
| Cpu8080.Group0Layout | virtual-cpu-8080/src/cpu.rs:68-185 | no group-0 arm reads more operand bytes than its opcode's layout provides |
| Cpu8080.Group3 | virtual-cpu-8080/src/cpu.rs:187-238 | every group-3 arm is implemented and none is HLT |
| Cpu8080.Group3Layout | virtual-cpu-8080/src/cpu.rs:187-238 | no group-3 arm reads more operand bytes than its opcode's layout provides |
| Cpu8080.UnaryColumns | virtual-cpu-8080/src/cpu.rs:68-185 | INR/DCR take their register from bits 3 to 5; low bits 4 increment and low bits 5 decrement |
| Cpu8080.ImmediateColumn | virtual-cpu-8080/src/cpu.rs:68-185 | MVI takes its register from bits 3 to 5 |
| Cpu8080.NopColumn | virtual-cpu-8080/src/cpu.rs:68-185 | every group-0 opcode with low bits 0 is a NOP |
| Cpu8080.PairColumns | virtual-cpu-8080/src/cpu.rs:68-185 | LXI, INX, DAD and DCX take BC, DE or HL from bits 4 and 5 |
| Cpu8080.Group3Fields | virtual-cpu-8080/src/cpu.rs:187-238 | the conditional returns, jumps and calls take their condition from bits 3 to 5, the immediate ALU arms their operation, and RST jumps to 8 times that field |
| Cpu8080.Group3Aliases | virtual-cpu-8080/src/cpu.rs:191-227 | 0xcb decodes as JMP, 0xd9 as RET, and 0xdd, 0xed and 0xfd as CALL |
| Cpu8080.StepFaults | virtual-cpu-8080/src/cpu.rs:240-255 | a step faults exactly on HLT or a fetch past the end of memory; otherwise it reports the table's cycles, and a non-branch leaves pc after the instruction |
| Cpu8080.StepNop | virtual-cpu-8080/src/cpu.rs:72 | NOP takes four cycles and only moves pc on by one |
| Cpu8080.StepStaxB | virtual-cpu-8080/src/cpu.rs:74 | STAX B stores register B (as written) at BC in seven cycles |
| Cpu8080.StepRestart | virtual-cpu-8080/src/cpu.rs:235 | RST n pushes the next instruction's address and jumps to 8n, in eleven cycles |
| Cpu8080.RestartTiming | virtual-cpu-8080/src/cpu.rs:7-21 | every RST takes eleven cycles and is one byte long |
| Cpu8080.StepCall | virtual-cpu-8080/src/cpu.rs:227 | CALL pushes the address after its three bytes and jumps to its operand, in seventeen cycles |
| Cpu8080.StepReturn | virtual-cpu-8080/src/cpu.rs:193 | RET pops pc from the stack in ten cycles |
| Cpu8080.CallThenReturn | virtual-cpu-8080/src/cpu.rs:193-227 | CALL to a RET comes back after the CALL with sp and registers restored, unless the pushed address overwrites the RET |
| CpuGb.TimingGb | virtual-cpu-gbz80/src/cpu.rs:6-20 | every gbz80 cycle count equals the 8080's for the same opcode |
| CpuGb.EmulateGb | virtual-cpu-gbz80/src/cpu.rs:271-286 | one gbz80 `emulate_instruction` on a `State8080` produces the outcome and new state of `StepGb` |
| CpuGb.DecodeGbByGroup | virtual-cpu-gbz80/src/cpu.rs:275-282 | the gbz80 dispatcher splits on the top two bits as the 8080's does |
| CpuGb.DecodeGb | virtual-cpu-gbz80/src/cpu.rs:271-282 | exactly STOP, the relative jumps, the CB prefix, RETI, the LDH forms, ADD SP,d, JP (HL), LDHL SP,d and the unused opcodes are unimplemented; only 0x76 is HLT; no arm is IN or OUT; with the 8080 length table every arm finds its operands except LD (nn),SP (0x08) |
| CpuGb.Group0Gb | virtual-cpu-gbz80/src/cpu.rs:67-194 | no group-0 arm is HLT, IN or OUT |
| CpuGb.Group0GbUnimplemented | virtual-cpu-gbz80/src/cpu.rs:67-194 | a group-0 arm is unimplemented exactly for STOP and the relative jumps |
| CpuGb.Group0GbLayout | virtual-cpu-gbz80/src/cpu.rs:84 | LD (nn),SP is the one group-0 arm that reads more operand bytes than the 8080 layout gives its opcode |
| CpuGb.Group3Gb | virtual-cpu-gbz80/src/cpu.rs:196-269 | no group-3 arm is HLT, IN or OUT (0xd3 and 0xdb are unimplemented) |
| CpuGb.Group3GbUnimplemented | virtual-cpu-gbz80/src/cpu.rs:196-269 | a group-3 arm is unimplemented exactly for the listed gbz80 opcodes of that group |
| CpuGb.Group3GbLayout | virtual-cpu-gbz80/src/cpu.rs:196-269 | no group-3 arm reads more operand bytes than the 8080 layout gives its opcode |
| CpuGb.AgreesWith8080 | virtual-cpu-gbz80/src/cpu.rs:67-269 | the gbz80 decodes an opcode as the 8080 does exactly when it is outside the listed changed opcodes |
| CpuGb.StepGb | virtual-cpu-gbz80/src/cpu.rs:271-286 | as on the 8080, a fetch past the end of memory faults, a step that completes or defers reports the table's cycles, and a panic changes nothing but the recorded length |
| CpuGb.StepGbFaults | virtual-cpu-gbz80/src/cpu.rs:271-286 | a gbz80 step faults exactly on a fetch past the end, HLT, an unimplemented opcode or LD (nn),SP's missing operand; otherwise as `Cpu8080.StepFaults` |
| CpuGb.StepGbAgrees | virtual-cpu-gbz80/src/cpu.rs:271-286 | on every unchanged opcode a gbz80 step equals an 8080 step |
| CpuGb.StepGbStoreStep | virtual-cpu-gbz80/src/cpu.rs:127-131 | LDI/LDD (HL),A store A at HL, step HL, and move pc on by three in 16 or 13 cycles |
| CpuGb.StepGbLoadStep | virtual-cpu-gbz80/src/cpu.rs:147-151 | LDI/LDD A,(HL) load A from HL, step HL, and move pc on by three in 16 or 13 cycles |
| CpuGb.StepGbCcf | virtual-cpu-gbz80/src/cpu.rs:191 | CCF clears the carry (as written) and moves pc on by one in four cycles |
| CpuGb.StepGbRst38 | virtual-cpu-gbz80/src/cpu.rs:265 | RST 38 pushes the next instruction's address and jumps to 0x30 (as written) in eleven cycles |

## Left out

- The `State` primitives outside the state.rs shown here are not part of this model. These are `unary_math_r8`, `add_rr16`, `add_ri16`, `add_ri8`, `adc_ri8`, `sub_ri8`, `sbb_ri8`, `cmp_ri8`, `logical_operation_ri`, `ret_if`, `jump_if`, `call_if`, `push_r16`, `pop_r16` and `set_interrupt_flag`. A step that reaches one ends in a `Deferred` outcome naming the call. The second half of DAA (`add_ri8(0x60)`) is deferred the same way.
- The half-carry flag `ac` is stored, serialized and preserved, but no modelled arm computes it; the arms that would are deferred.
- `get_indirect8`, `mov_pi8`, `push_word`, `pop_word` and `get_instruction` on `State` are modelled from their call sites and from the stack and program methods they stand for. Their source file is not part of this model.
- The `Machine` trait's port devices are left out. The value read by IN is a parameter of a step; OUT is reported as an `Io` value.
- The tests behind the `Flags8080` predicates that `predicate_for` returns (`is_nz`, `is_z`, `is_nc`, `is_c`, `is_parity_odd`, `is_parity_even`, `is_plus`, `is_minus`) are left out: their source is not part of this model. A condition is modelled by its name and its 3-bit code only, and the conditional arms that would evaluate it are deferred.
- The diagnostic `println!` output of `unimplemented_instruction` is left out; only the panic and its opcode and pc are modelled.
- Debug-build overflow panics are left out: `+`, `-` and `+=` on `u8`/`u16` wrap, as in a release build. This covers `get_word`, `set_word`, `pop_byte`, `push_byte`, `advance`, `call`, INX/DCX SP and DAA.
- What the cycle counts mean in time, the loop that drives `emulate_instruction`, and interrupts are left out.
- `virtual-cpu-core`'s `Program`, `Stack` and `Flags` traits, its `bytes` helpers and the crate roots are not modelled separately; their 8080 implementations are.
- Memory.Memory8080.Load: requires the data to fit below address 0x10000, where the source panics on the out-of-range slice.
- Memory.Memory8080.View: requires start <= end + 1, where the source panics on the reversed range.
- Instructions.RegisterForCode: requires a code other than 6, where the source panics; its callers never pass 6.
- Instructions.WordArgFrom: requires three bytes, and `byte_arg_from` two, where the source panics on a short slice. `Apply` checks the length first and reports `MissingOperand`.
