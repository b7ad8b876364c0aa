# emcs51 core, modelled in Dafny

emcs51 is a small 8051 microcontroller emulator written in C. This project
models its core:

- the core object `emcs51_core_t`, with its operations: initialisation,
  registering instruction descriptors (one opcode or a range), registering
  the per-address data hooks, attaching the external RAM, reset, the
  general-purpose register (R0..R7) accessors and the data-pointer (DPTR)
  accessors;
- the fetch-decode-execute step `emcs51_core_inc`;
- the thirteen handlers of the general instruction set, their descriptors
  and `emcs51_general_inst_init`, which installs 28 opcodes;
- the status codes and `emcs51_err_name`.

The model has two layers.

- Value layer:
  - module `Machine` (machine.dfy) has the state `State` and the core
    operations as functions;
  - module `Semantics` (semantics.dfy) has the handlers, the descriptors,
    the installer, the step `Inc` and `Run` (n steps) as functions.
- Object layer:
  - class `Emcs51Core.Core` (core.dfy) holds the internal RAM, the operand
    buffer and the borrowed external RAM as arrays, updated in place;
  - module `GeneralInst` (general_inst.dfy) has the handlers as methods on
    the core;
  - module `Engine` (engine.dfy) has the step as a method on the core.
  - Each method is proved to change the object exactly as the matching
    function changes the abstract state `Core.Abs()`.

The properties are lemmas about the value layer:

- `Step` covers every path through one step;
- `CoreProperties` covers registration, the register and data-pointer
  accessors, and reset;
- `InstProperties` covers the handlers;
- `Programs` covers the installed table and whole programs: the NOP, SJMP
  and MOV direct test programs, and a `DJNZ Rn,$` countdown from any starting value: from 1 to 255
  it loops that many times, and from 0 the decrement wraps to 255 and it
  loops 256 times.

Bytes and words are integers restricted to 0..255 and 0..65535 (`uint8`,
`uint16`). Every place where the C code truncates or wraps is written out
explicitly with `Wrap8`, `Wrap16` or `Succ16`.

The code store is served by a fetch function that behaves like the code
callbacks of the repository's test programs:

- it returns `len` bytes from `addr`;
- it fails with `ERR_CODE_OUT_OF_RANGE` (−3) when `addr + len` runs past
  the store.

A write hook is identified by a `HookId`. Each call of a hook is recorded
in the ghost log `hookLog` as `HookCall(hook, addr, value)`, so the order
in which the hooks are called is part of the model.

## Model

The proof helpers `Next`, `RunPrev`, `CountingInc`, `CountingAfterDecrement`,
`CountingStart`, `CountingObserved` and the predicates `AtDjnzSelfLoop` and
`Counting` only restate or combine the lemmas below and have no row.

| member | source | states |
|---|---|---|
| Emcs51.ErrName | src/emcs51.c:3-20 | the name is "UNKNOWN_ERR" exactly for codes outside 0..−4; −5 (`ERR_XDATA_OUT_OF_RANGE`) has no name of its own |
| Emcs51.ErrNameRoundTrip | src/emcs51.c:3-20 | looking a printed name back up gives the code it was printed from, for exactly the five named codes; every other code gives "no code" |
| Emcs51.ErrNamesDistinct | src/emcs51.c:5-17 | the five named codes have pairwise distinct names |
| Machine.Init | src/core/emcs51_core.c:9-20 | after init, error 0, every register, RAM byte and jump flag zero, every opcode slot undefined, no hooks, no external RAM, and the given code store |
| Machine.InstAddRange | src/core/emcs51_core.c:30-48 | an empty range or one that runs past slot 255 changes nothing; otherwise exactly the slots of the range receive the descriptor, and nothing outside the table changes |
| Machine.InstAdd | src/core/emcs51_core.c:57-67 | exactly the opcode's slot receives the descriptor; nothing else changes |
| Machine.RegAdd | src/core/emcs51_core.c:76-83 | the write hook and the read hook at the address are both replaced; every other address and everything else is unchanged |
| Machine.SetXdataRam | src/core/emcs51_core.c:152-159 | the external RAM becomes the given buffer, whose length is the configured size; nothing else changes |
| Machine.Reset | src/core/emcs51_core.c:166-172 | only the register file is cleared |
| Machine.Bank | src/core/emcs51_core.h:37-51 | the register bank (PSW bits 3-4) is at most 3 |
| Machine.GprAddr | src/core/emcs51_core.c:263-275 | register n of the bank lies at bank*8+n, below 32 |
| Machine.GprStatus | src/core/emcs51_core.c:263-296 | both register accessors return ERR exactly when n > 7, and OK otherwise |
| Machine.ReadGpr | src/core/emcs51_core.c:263-275 | the read fails, with ERR, exactly when n > 7 |
| Machine.WriteGpr | src/core/emcs51_core.c:284-296 | n > 7 changes nothing; otherwise no internal-RAM byte other than the register's changes |
| Machine.Word | src/core/emcs51_core.c:298-307 | the word built from two bytes has them as its high and low byte |
| Machine.Dptr | src/core/emcs51_core.c:298-307 | the data pointer's high byte is DPH (0x82) and its low byte DPL (0x83) |
| Machine.WithDptr | src/core/emcs51_core.c:309-318 | DPH (0x82) gets the high byte, DPL (0x83) the low byte, no other byte changes |
| Machine.Fetch | testing/emcs51_nop_inst_test.c:16-26 | the fetch succeeds exactly when addr+len fits in the store, returning those bytes; otherwise it fails with ERR_CODE_OUT_OF_RANGE |
| Semantics.Signed | src/instruction/emcs51_general_inst.c:105-116 | the offset byte, read as a signed 8-bit value, lies in −128..127 and is encoded by that byte |
| Semantics.Store | src/instruction/emcs51_general_inst.c:47-60 | a direct store sets exactly the addressed byte; when a write hook is registered at the address, the log gains exactly one call of that hook with the address and the value, and otherwise the log is unchanged |
| Semantics.ExecNop | src/instruction/emcs51_general_inst.c:8-17 | NOP leaves the core exactly as it was |
| Semantics.ExecLjmp | src/instruction/emcs51_general_inst.c:25-40 | LJMP sets pc to the word whose high byte is the first operand and low byte the second, sets the jump flag, and changes nothing else |
| Semantics.ExecMovDirectImmed | src/instruction/emcs51_general_inst.c:47-66 | MOV direct,#imm stores the second operand at the address in the first, logs the hook call at that address, and changes nothing else |
| Semantics.ExecMovRnImmed | src/instruction/emcs51_general_inst.c:73-98 | MOV Rn,#imm stores the operand in register opcode % 8 of the current bank, logs the hook call at that address, and changes nothing else |
| Semantics.ExecSjmp | src/instruction/emcs51_general_inst.c:105-122 | SJMP sets pc to pc + 2 + the signed offset, modulo 0x10000, sets the jump flag, and changes nothing else |
| Semantics.ExecMovDptrImmed | src/instruction/emcs51_general_inst.c:129-144 | MOV DPTR,#imm writes the first operand to DPH and the second to DPL, calls no hook and changes nothing else |
| Semantics.ExecIncDptr | src/instruction/emcs51_general_inst.c:151-182 | INC DPTR writes the 16-bit successor of DPTR back to DPH and DPL, and no other byte changes |
| Semantics.ExecClrBit | src/instruction/emcs51_general_inst.c:189-210 | CLR bit stores 0x00 at the operand address, logs the hook call there, and changes nothing else |
| Semantics.ExecSetBit | src/instruction/emcs51_general_inst.c:217-238 | SETB bit stores 0x01 at the operand address, logs the hook call there, and changes nothing else |
| Semantics.ExecDjnzRn | src/instruction/emcs51_general_inst.c:245-287 | a register number above 7 (opcode − 0xD8 in 8 bits) sets the error to ERR and nothing else; otherwise the register is decremented modulo 256, no hook is called, and afterwards the jump flag is set exactly when the register was not 1 or the flag was already set; pc becomes the relative target when the register was not 1, and A, B, SP, PSW (and pc on fall-through) are kept |
| Semantics.ExecClrA | src/instruction/emcs51_general_inst.c:294-308 | CLR A zeroes the accumulator and changes nothing else |
| Semantics.ExecMovxAtDptrA | src/instruction/emcs51_general_inst.c:315-344 | MOVX @DPTR,A writes A at DPTR when DPTR is inside the external RAM, otherwise drops the write; nothing else changes |
| Semantics.ExecMovAtRiA | src/instruction/emcs51_general_inst.c:351-379 | a register number above 7 (opcode − 0xF6 in 8 bits) sets the error to ERR and nothing else; otherwise A is stored at the address R0/R1 holds, with its hook call logged |
| Semantics.GeneralInstInit | src/instruction/emcs51_general_inst.c:386-413 | the installer changes only the opcode table, and every slot it changes ends up holding a defined descriptor |
| Semantics.Exec | src/core/emcs51_core.c:227-235 | no handler changes the code store, the opcode table, the hook tables or the operand buffer |
| Semantics.Inc | src/core/emcs51_core.c:179-254 | a step never changes the code store, the opcode table or the hook tables |
| Semantics.Complete | src/core/emcs51_core.c:237-253 | the end of a step changes only the error, the registers and the jump flag |
| Semantics.Run | src/core/emcs51_core.c:179-254 | any number of steps keeps the code store and the opcode table |
| Emcs51Core.Core.constructor | src/core/emcs51_core.c:9-20 | a new core is in the state `Machine.Init` describes |
| Emcs51Core.Core.Init | src/core/emcs51_core.c:9-20 | re-initialising in place gives the state `Machine.Init` describes |
| Emcs51Core.Core.InstAddRange | src/core/emcs51_core.c:30-48 | the slot-by-slot loop registers the range as `Machine.InstAddRange` says |
| Emcs51Core.Core.InstAdd | src/core/emcs51_core.c:57-67 | as `Machine.InstAdd` |
| Emcs51Core.Core.RegAdd | src/core/emcs51_core.c:76-83 | as `Machine.RegAdd` |
| Emcs51Core.Core.SetXdataRam | src/core/emcs51_core.c:152-159 | the core now uses the given buffer as its external RAM; the abstract state is as `Machine.SetXdataRam` says |
| Emcs51Core.Core.Reset | src/core/emcs51_core.c:166-172 | as `Machine.Reset` |
| Emcs51Core.Core.ReadGpr | src/core/emcs51_core.c:263-275 | returns ERR when n > 7; otherwise returns OK and the byte at bank*8+n, which is `Machine.ReadGpr` |
| Emcs51Core.Core.WriteGpr | src/core/emcs51_core.c:284-296 | returns ERR when n > 7 and OK otherwise; the state is as `Machine.WriteGpr` says |
| Emcs51Core.Core.ReadDptr | src/core/emcs51_core.c:298-307 | returns OK and the big-endian word DPH:DPL |
| Emcs51Core.Core.WriteDptr | src/core/emcs51_core.c:309-318 | returns OK; the state is as `Machine.WithDptr` says |
| GeneralInst.StoreDirect | src/instruction/emcs51_general_inst.c:47-60 | calls the write hook at the address, if there is one, then stores the byte, as `Semantics.Store` says |
| GeneralInst.NopExec | src/instruction/emcs51_general_inst.c:8-17 | changes nothing |
| GeneralInst.LjmpExec | src/instruction/emcs51_general_inst.c:25-40 | as `Semantics.ExecLjmp` |
| GeneralInst.MovDirectImmedExec | src/instruction/emcs51_general_inst.c:47-66 | as `Semantics.ExecMovDirectImmed` |
| GeneralInst.MovRnImmedExec | src/instruction/emcs51_general_inst.c:73-98 | as `Semantics.ExecMovRnImmed` |
| GeneralInst.SjmpExec | src/instruction/emcs51_general_inst.c:105-122 | as `Semantics.ExecSjmp` |
| GeneralInst.MovDptrImmedExec | src/instruction/emcs51_general_inst.c:129-144 | as `Semantics.ExecMovDptrImmed` |
| GeneralInst.IncDptrExec | src/instruction/emcs51_general_inst.c:151-182 | as `Semantics.ExecIncDptr` |
| GeneralInst.ClrBitExec | src/instruction/emcs51_general_inst.c:189-210 | as `Semantics.ExecClrBit` |
| GeneralInst.SetBitExec | src/instruction/emcs51_general_inst.c:217-238 | as `Semantics.ExecSetBit` |
| GeneralInst.DjnzRnExec | src/instruction/emcs51_general_inst.c:245-287 | as `Semantics.ExecDjnzRn` |
| GeneralInst.ClrAExec | src/instruction/emcs51_general_inst.c:294-308 | as `Semantics.ExecClrA` |
| GeneralInst.MovxAtDptrAExec | src/instruction/emcs51_general_inst.c:315-344 | as `Semantics.ExecMovxAtDptrA` |
| GeneralInst.MovAtRiAExec | src/instruction/emcs51_general_inst.c:351-379 | as `Semantics.ExecMovAtRiA` |
| GeneralInst.Exec | src/core/emcs51_core.c:227-235 | runs the handler that the descriptor names |
| GeneralInst.GeneralInstInit | src/instruction/emcs51_general_inst.c:386-413 | performs the thirteen registrations in the order of the source |
| Engine.Inc | src/core/emcs51_core.c:179-254 | one step on the object changes it exactly as `Semantics.Inc` describes |
| Engine.Execute | src/core/emcs51_core.c:226-253 | loads the operands, runs the handler if there is one, then ends the step |
| Engine.LoadOperands | src/core/emcs51_core.c:217 | the fetched bytes overwrite the front of the operand buffer; the rest of the buffer keeps its old bytes |
| Engine.Complete | src/core/emcs51_core.c:237-253 | the bounds check, then the advance or the clearing of the jump flag, as `Semantics.Complete` says |
| Step.IncSticky | src/core/emcs51_core.c:189-192 | a core with a negative error does nothing at all |
| Step.IncOpcodeFetchFails | src/core/emcs51_core.c:196-201 | a pc past the code store: the error becomes −3 and nothing else changes |
| Step.IncUnknownOpcode | src/core/emcs51_core.c:206-213 | an unregistered opcode: the error becomes ERR_UNKNOWN_INST, pc stays on the opcode and nothing else changes |
| Step.IncOperandFetchFails | src/core/emcs51_core.c:217-222 | operands past the code store: the error becomes −3, nothing else changes and the operand buffer is not touched |
| Step.IncExecutes | src/core/emcs51_core.c:196-253 | when both fetches succeed, the step loads the operand bytes that follow the opcode, runs the handler and ends the step |
| CoreProperties.AddEach | src/core/emcs51_core.c:39-47 | registering opcodes one at a time keeps the state well formed |
| CoreProperties.AddEachSlots | src/core/emcs51_core.c:39-47 | registering one opcode at a time overwrites exactly the range and nothing outside the table |
| CoreProperties.InstAddRangeIsEachAdd | src/core/emcs51_core.c:30-67 | a range registration equals registering each of its opcodes with `inst_add` in turn |
| CoreProperties.InstAddLastWins | src/core/emcs51_core.c:57-67 | a later registration of the same opcode replaces the earlier one |
| CoreProperties.InstAddCommutes | src/core/emcs51_core.c:57-67 | registrations of different opcodes can be done in either order |
| CoreProperties.RegAddLastWins | src/core/emcs51_core.c:76-83 | a later hook registration at an address replaces both earlier hooks there |
| CoreProperties.GprAddrInjective | src/core/emcs51_core.c:263-296 | two registers share an address exactly when they have the same bank and the same number |
| CoreProperties.ReadAfterWriteGpr | src/core/emcs51_core.c:263-296 | reading a register after writing it gives the value written |
| CoreProperties.ReadOtherAfterWriteGpr | src/core/emcs51_core.c:263-296 | writing one register leaves the other registers of the bank as they were |
| CoreProperties.WriteGprOfReadGpr | src/core/emcs51_core.c:263-296 | writing back the value just read changes nothing |
| CoreProperties.GprRefused | src/core/emcs51_core.c:267-268 | n > 7: the read fails with ERR and the write changes nothing |
| CoreProperties.WordOfBytes | src/core/emcs51_core.c:298-318 | splitting a word into bytes and joining them gives the word back |
| CoreProperties.DptrAfterWithDptr | src/core/emcs51_core.c:298-318 | reading DPTR after writing it gives the value written |
| CoreProperties.WithDptrOfDptr | src/core/emcs51_core.c:298-318 | writing back the DPTR value just read changes nothing |
| CoreProperties.DptrBigEndian | src/core/emcs51_core.c:301-304 | DPTR is DPH*256 + DPL |
| CoreProperties.ResetKeepsAllButRegs | src/core/emcs51_core.c:166-172 | reset keeps the error, the RAM, the tables, the hooks and the jump flag, and resetting twice is the same as resetting once |
| InstProperties.NonJumpingKeepsPc | src/instruction/emcs51_general_inst.c:8-379 | every handler other than LJMP, SJMP and DJNZ leaves pc and the jump flag alone |
| InstProperties.StepAdvances | src/core/emcs51_core.c:245-246 | whenever the jump flag is clear after the handler (every non-jumping handler, and DJNZ when the register reaches 0), pc moves past the opcode and its operands, and the flag stays clear |
| InstProperties.StepFollowsJump | src/core/emcs51_core.c:248-253 | after a handler that jumped, pc is the handler's target and the jump flag is cleared |
| InstProperties.StepOverflows | src/core/emcs51_core.c:237-241 | when the handler's pc + 1 + length exceeds 0xFFFF: the error becomes −3, pc does not advance and the jump flag stays as the handler left it |
| InstProperties.JumpFlagClearAfterStep | src/core/emcs51_core.c:237-253 | a step that starts with the jump flag clear ends with it clear, unless the bounds check stopped it |
| InstProperties.LjmpTarget | src/instruction/emcs51_general_inst.c:25-33 | LJMP jumps to the address whose high byte is the first operand and whose low byte is the second; nothing but pc and the jump flag changes |
| InstProperties.SignedOfWrap8 | src/instruction/emcs51_general_inst.c:105-116 | every distance in −128..127 survives being encoded as an offset byte |
| InstProperties.RelTargetReaches | src/instruction/emcs51_general_inst.c:105-116 | SJMP and DJNZ reach pc + 2 + distance, modulo 0x10000, for every distance a byte can encode |
| InstProperties.RelTargetSelf | src/instruction/emcs51_general_inst.c:105-116 | the offset 0xFE jumps back onto the instruction itself |
| InstProperties.MovRnImmedIsWriteGpr | src/instruction/emcs51_general_inst.c:73-91 | MOV Rn,#imm stores like `write_GPR` of register opcode % 8, calls the hook at the register's address, and the register then reads back the operand |
| InstProperties.BitOpsWriteWholeByte | src/instruction/emcs51_general_inst.c:189-238 | CLR bit and SETB bit write the whole byte at the operand address (0x00 and 0x01), and no other byte |
| InstProperties.DjnzDecrements | src/instruction/emcs51_general_inst.c:245-280 | DJNZ decrements the register modulo 256 without calling a hook, and jumps to the relative target exactly when the register was not 1; only pc among the registers changes, and only on the jump |
| InstProperties.MovDptrImmedLoads | src/instruction/emcs51_general_inst.c:129-137 | MOV DPTR,#imm loads DPTR with the first operand as high byte and the second as low byte |
| InstProperties.Succ16IsWrap | src/instruction/emcs51_general_inst.c:151-175 | the 16-bit increment is addition modulo 0x10000 |
| InstProperties.IncDptrWraps | src/instruction/emcs51_general_inst.c:151-175 | INC DPTR adds one modulo 0x10000, so 0xFFFF wraps to 0, and changes no byte other than DPH and DPL |
| InstProperties.MovxStoresIffInside | src/instruction/emcs51_general_inst.c:315-337 | MOVX @DPTR,A writes A at DPTR exactly when DPTR is inside the external RAM, changes no other byte and never raises an error |
| InstProperties.MovAtRiAStores | src/instruction/emcs51_general_inst.c:351-372 | MOV @Ri,A stores A at the address that R0 or R1 holds, and no other byte; the write hook registered at that address, if any, is called once with that address and A |
| InstProperties.RegisterIndexedRefused | src/instruction/emcs51_general_inst.c:245-372 | DJNZ and MOV @Ri reached through an opcode whose register number is above 7 set the error to ERR and change nothing else |
| Programs.InstalledCount | src/instruction/emcs51_general_inst.c:386-413 | the installer fills 28 distinct opcodes |
| Programs.AscendingStep | src/instruction/emcs51_general_inst.c:386-413 | the installed opcodes are listed in strictly ascending order |
| Programs.ExpectedDefOccupiesInstalled | src/instruction/emcs51_general_inst.c:386-413 | an opcode has a descriptor exactly when it is one of the 28 installed opcodes |
| Programs.GeneralInstInitTable | src/instruction/emcs51_general_inst.c:386-413 | the installer gives every opcode of its ranges the right descriptor, keeps every other slot, and changes nothing outside the table |
| Programs.InstalledAfterInit | src/instruction/emcs51_general_inst.c:386-413 | after init and the installer, exactly the 28 opcodes are defined, and each has its descriptor |
| Programs.PlainStep | src/core/emcs51_core.c:196-246 | a step of an installed handler that does not jump runs the handler on the loaded operands and moves pc past the instruction |
| Programs.NopStep | src/instruction/emcs51_general_inst.c:8-17 | a NOP step moves pc by one and changes nothing else |
| Programs.ClrAStep | src/instruction/emcs51_general_inst.c:294-308 | a CLR A step zeroes A and moves pc by one |
| Programs.MovDirectImmedStep | src/instruction/emcs51_general_inst.c:47-66 | a MOV direct,#imm step stores the value through the hook and moves pc by three |
| Programs.SjmpStep | src/instruction/emcs51_general_inst.c:105-122 | an SJMP step moves pc to the relative target and ends with the jump flag clear |
| Programs.RunLast | src/core/emcs51_core.c:179-254 | k + 1 steps are k steps followed by one more |
| Programs.RunSticky | src/core/emcs51_core.c:189-192 | once the error is negative, no number of steps changes anything |
| Programs.Boot | testing/emcs51_nop_inst_test.c:41-42 | a core after init and the installer differs from the freshly initialised core only in its opcode table, which holds the expected descriptors |
| Programs.UnknownOpcodeStops | src/core/emcs51_core.c:206-213 | a program that starts with an uninstalled opcode stops for good with ERR_UNKNOWN_INST |
| Programs.NopSled | src/instruction/emcs51_general_inst.c:8-17 | k NOPs move pc by k and change nothing else |
| Programs.NopProgram | testing/emcs51_nop_inst_test.c:4-63 | the NOP test: four NOPs move pc to 1, 2, 3 and 4 with no error; a fifth step runs off the code store with −3 |
| Programs.SledThenSjmpBack | src/instruction/emcs51_general_inst.c:105-122 | k NOPs and then an SJMP with offset −(k + 2) bring pc back to 0 without an error |
| Programs.SjmpProgram1 | src/instruction/emcs51_general_inst.c:105-122 | the first SJMP test program (NOP, SJMP −3): after two steps pc is 0 and there is no error |
| Programs.SjmpProgram2 | src/instruction/emcs51_general_inst.c:105-122 | the second SJMP test program (NOP, NOP, SJMP −4): after three steps pc is 0 and there is no error |
| Programs.MovDirectHookedStep | src/instruction/emcs51_general_inst.c:47-66 | one MOV direct,#immediate step with a write hook at the address: the hook call with the address and value is appended to the log, the byte is stored, pc moves by three, and code, table and hooks are kept |
| Programs.MovDirectProgram | testing/emcs51_mov_direct_immed_inst_test.c:4-80 | the MOV direct test: the P0 hook sees 0xAA and then 0x55, P0 ends at 0x55, pc at 6, with no error |
| Programs.DjnzSelfLoopExec | src/instruction/emcs51_general_inst.c:245-280 | on `DJNZ Rn,$` the handler decrements the register and jumps onto itself unless the register reached 0 |
| Programs.DjnzStep | src/instruction/emcs51_general_inst.c:245-287 | one step of `DJNZ Rn,$`: the register is decremented and pc stays, or moves past the instruction when the register was 1 |
| Programs.CountingRun | src/instruction/emcs51_general_inst.c:245-287 | given that one step from a counting state above 1 counts down by one (discharged for `DJNZ Rn,$` by `CountingInc`), the next m < v steps from register value v leave the register at v − m and everything else the loop touches unchanged, by induction on m |
| Programs.DjnzCountsDown | src/instruction/emcs51_general_inst.c:245-287 | from register value k > 0, for each j < k, the register holds k − j after j steps and pc stays on the loop |
| Programs.DjnzLeaves | src/instruction/emcs51_general_inst.c:245-287 | the last iteration of `DJNZ Rn,$`: from register value 1 the step clears the register, moves pc past the instruction and raises no error |
| Programs.DjnzLoop | src/instruction/emcs51_general_inst.c:245-287 | `DJNZ Rn,$` with k > 0 in the register loops exactly k times: pc stays for k − 1 steps, and after k steps the register is 0, pc is past the loop and there is no error |
| Programs.DjnzLoopFromZero | src/instruction/emcs51_general_inst.c:245-280 | `DJNZ Rn,$` with 0 in the register: the decrement wraps to 255 and the branch is taken, so after 256 steps the register is 0, pc is past the loop and there is no error |
| Programs.MovRnImmedStep | src/instruction/emcs51_general_inst.c:73-98 | a MOV Rn,#imm step stores the operand in register n of the bank and moves pc by two |
| Programs.CountdownProgram | src/instruction/emcs51_general_inst.c:73-287 | `MOV Rn,#k` followed by `DJNZ Rn,$`, with k > 0: after k + 1 steps the register is 0, pc is 4 and there is no error |

## Left out

- Console output is not modelled: the unknown-opcode `printf` in the step and `emcs51_core_inst_dump`.
- The STM32 firmware and the test runner are not modelled. The test programs that exercise the general instructions are restated as lemmas in `Programs`.
- NULL checks on the core and callback pointers are not modelled: every object in the model exists.
- The read hooks are registered and kept, but no handler in this core ever calls one.
- The code callback is modelled as the fixed function `Fetch`, which serves a byte sequence the way the repository's test callbacks do. A callback with any other behaviour is not modelled.
- Write hooks are assumed only to observe the value they are given. The status they return is ignored, as in the source. A hook that changed the core would make the core reentrant, and that is not modelled.
- The tables (opcode descriptors, write hooks, read hooks) are sequences that are replaced as a whole. They are not arrays updated in place.
- Emcs51Core.Core.SetXdataRam: requires that the new buffer is not the core's own internal RAM or operand buffer. The C code does not check this. Aliasing between those storage areas is not modelled.
- Emcs51Core.Core.Init: also empties the external RAM and clears the ghost hook log. The C code zeroes the pointer and the size.
- Emcs51Core.Core.ReadGpr: returns data 0 when n > 7. The C code leaves the caller's variable untouched.
- The unreachable error branches that the handlers take after `read_DPTR`/`write_DPTR`/`write_GPR` are not modelled. Those accessors cannot fail on the register numbers the handlers pass.
- The operand length of a descriptor is limited to 0..4, the size of the operand buffer. A longer length would overflow the buffer in C.
- The PSW is a plain byte, and the register bank is read as bits 3-4. The compiler's bit-field layout of the `psw` union is not modelled.
- Cycle counts are recorded in the descriptors, but timing is not modelled. The unused `code_type`, `code_buffer` and `code_len` configuration fields are also left out.
- Concurrency is not modelled.
- SETB's descriptor keeps the source's mnemonic "SET bit".
