# Xpeccy emulator core, modelled in Dafny

Xpeccy emulates the ZX Spectrum and related machines. This project models the parts of its
core that are plain integer and bit-level code, and proves properties of them:

- **The K1801VM1 processor, a PDP-11 family CPU** (`src/libxpeccy/cpu/1801vm1/1801vm1.c`).
  - Files: `pdp11*.dfy`.
  - Covered: the PSW and its packing; the word and byte bus with the NOD byte-lane flag;
    the eight addressing modes and the write-back through the latch WZ.
  - Also: every instruction handler; the MUL/DIV/ASH/ASHC extensions; the trap and interrupt
    protocol; the dispatch tables; the programmable timer; reset; the disassembler table
    lookup.
  - The handlers' file-scope scratch words `twsrc`, `twdst` and `twres` are fields of the
    CPU object `Pdp11Core.Cpu`.
- **The 80286 engine** (`src/libxpeccy/cpu/i80286/i80286_nop.c`).
  - Files: `i286*.dfy`.
  - Covered: the segment-rights predicates; descriptor-cache loading in real and protected
    mode; the stack; the ModRM operand; inc/dec; the BCD adjusts, multiply and divide.
  - Also: the REP templates; every handler `i286_op00` .. `i286_opFF`; the entry checks of
    `i286_check_gate` and `i286_switch_task`; far calls, jumps and IRET; the opcode table
    with its per-generation sub-tables.
  - The handlers that loop (the rotate repeat, ENTER, the call-gate parameter copy) are
    methods of `I286Core.Cpu` with their loops.
- **The Z80 unprefixed instruction page** (`src/libxpeccy/cpu/Z80/z80nop.c`) and the
  constant tables of `src/libxpeccy/cpu/Z80/z80_tab.c`.
  - Files: `z80_cpu.dfy`, `z80_core.dfy`, `z80_tab.dfy`.
  - Covered: the stack, CALL/RET with WZ, the rotates, the flag-only instructions, relative
    jumps with their cycle charges, prefix switching and the decode flags of `npTab`.
  - The byte-exact DAA table is proved entry by entry to follow the decimal-adjust rule.
- **The MOS 6502 control core** (`src/libxpeccy/cpu/MOS6502/6502.c`, file `mos6502.dfy`).
  - Covered: flag packing, the page-1 stack, NMI/IRQ servicing and the step driver.
  - Also: reset, the branch condition the disassembler reports, and loading registers from
    a debugger bunch.
- **Machine bookkeeping** (`src/libxpeccy/spectrum.c`, file `spectrum.dfy`).
  - Covered: breakpoint-flag cells and their lookup; the one-shot fetch breakpoint of
    `compExec`; reset-mode decoding; the ULA palette conversion; the CMOS read/write mode.
- **The General Sound card** (`src/gs.cpp`, file `gs.dfy`).
  - Covered: the data and command handshake bits of `pstate`, bank selection, volume
    latches, channel latching on memory reads and the mixer.

Memory and I/O callbacks become byte maps the model owns. Most helpers whose bodies live
outside these files are parameters of a step (the ALU helpers of the 80286 and the Z80, the
rotate helpers, `x86_get_flag`/`x86_set_flag`, the port callbacks, the CMOS chip, the PC
keyboard). Each is given only the contract the calling code relies on. The Z80 flag helpers
`z80_get_flag`/`z80_set_flag` are the exception: the model defines them with an assumed bit
layout (see "## Left out").

State that the code changes in place is a class whose fields mirror the C record. Each
method is proved to leave the object as a function of the old state says. The properties
are lemmas about those functions.

Where the code and its evident intent differ, the model keeps the code as written beside a
corrected definition. The rest of the model uses the corrected definition, and a lemma
exhibits an input on which the two differ (see "## Findings").

## Model

| member | source | states |
|---|---|---|
| Pdp11.UnpackPack | src/libxpeccy/cpu/1801vm1/1801vm1.c:10-23 | loading a packed PSW gives back the same flags |
| Pdp11.PackUnpack | src/libxpeccy/cpu/1801vm1/1801vm1.c:10-23 | packing a loaded PSW gives the loaded word masked to the modelled bits (0C9F: C, V, Z, N, T, bit 7, bit 10, bit 11) |
| Pdp11.WordRoundTrip | src/libxpeccy/cpu/1801vm1/1801vm1.c:39-48 | a word read returns the word last written to the same even address, and a write leaves every other word alone |
| Pdp11.SameCell | src/libxpeccy/cpu/1801vm1/1801vm1.c:34 | the two byte addresses of a word select the same even word, and exactly one of them is odd (with lines 41, 47, 52) |
| Pdp11.StoreCell | src/libxpeccy/cpu/1801vm1/1801vm1.c:26-44 | a store changes only the word at the even address, merging the bytes that NOD selects |
| Pdp11.WrbLane | src/libxpeccy/cpu/1801vm1/1801vm1.c:26-36 | a byte write at an odd address lands in the high byte of the word, at an even address in the low byte |
| Pdp11.ByteRoundTrip | src/libxpeccy/cpu/1801vm1/1801vm1.c:26-36 | a byte read returns the byte just written at that address, and the write sets NOD to 2 for an odd address and 1 for an even one (with lines 51-54) |
| Pdp11.ByteKeepsPartner | src/libxpeccy/cpu/1801vm1/1801vm1.c:26-36 | a byte write leaves the other byte of its word unchanged (with lines 51-54) |
| Pdp11.PopAfterPush | src/libxpeccy/cpu/1801vm1/1801vm1.c:72-81 | a pop right after a push returns the pushed word and restores every register |
| Pdp11.TrapPushes | src/libxpeccy/cpu/1801vm1/1801vm1.c:91-107 | a trap from MCIR 5 pushes the packed PSW and then PC below SP, lowers SP by 4, loads PC from the vector and the PSW from the word after it, and sets MCIR to 1 |
| Pdp11.TrapSaves | src/libxpeccy/cpu/1801vm1/1801vm1.c:91-107 | a trap from MCIR 2 or 3 leaves SP and memory alone, saves the PSW and PC in the 177676/177674 registers (PC lowered by 2 for MCIR 2), loads PC from the vector and sets MCIR to 1 |
| Pdp11.TrapKeepsRequests | src/libxpeccy/cpu/1801vm1/1801vm1.c:91-107 | a trap leaves the pending and enabled requests and the WAIT flag alone |
| Pdp11.ServeKeepsRequests | src/libxpeccy/cpu/1801vm1/1801vm1.c:116-149 | serving one request leaves the request lines and the WAIT flag alone |
| Pdp11.InterruptServesHighest | src/libxpeccy/cpu/1801vm1/1801vm1.c:109-154 | the pending set is first masked by the enables; the cycle reports 10 exactly when a request remains, then clears just the highest of them, and reports 0 and changes nothing else otherwise |
| Pdp11.HighestPending | src/libxpeccy/cpu/1801vm1/1801vm1.c:116-149 | the request served is pending, and none ranking above it in the order IRQ1, IRQ2, IRQ3, VIRQ, timer is pending |
| Pdp11.InterruptEndsWait | src/libxpeccy/cpu/1801vm1/1801vm1.c:112-121 | a pending request ends WAIT; when the served request traps nowhere (IRQ1, the timer) the only register change is PC stepping over the WAIT instruction (with lines 143-149) |
| Pdp11.LoopSettles | src/libxpeccy/cpu/1801vm1/1801vm1.c:1406-1424 | the timer loop adds whole periods to the counter, as many as it takes; a counter that was negative ends in 0 .. period-1, and one that was not is left as it was |
| Pdp11.IdleTimer | src/libxpeccy/cpu/1801vm1/1801vm1.c:1408 | a timer with bit 4 of its flags clear never changes its value or its flags and never raises its request |
| Pdp11.StoppedTimer | src/libxpeccy/cpu/1801vm1/1801vm1.c:1404 | a timer with bit 0 of its flags set is left untouched |
| Pdp11Addr.ModeOf | src/libxpeccy/cpu/1801vm1/1801vm1.c:165 | the addressing mode is below 8 |
| Pdp11Addr.StepOf | src/libxpeccy/cpu/1801vm1/1801vm1.c:163-164 | the step is 1 or 2 (with lines 172, 182) |
| Pdp11Addr.RegisterMode | src/libxpeccy/cpu/1801vm1/1801vm1.c:166-167 | register mode names no address and changes nothing |
| Pdp11Addr.MemoryModes | src/libxpeccy/cpu/1801vm1/1801vm1.c:168-209 | every other mode names an address |
| Pdp11Addr.Autoincrement | src/libxpeccy/cpu/1801vm1/1801vm1.c:171-174 | `(Rn)+` uses Rn and then steps it by 1 for a byte operand in R0-R5 and by 2 otherwise; no other register changes |
| Pdp11Addr.Autodecrement | src/libxpeccy/cpu/1801vm1/1801vm1.c:181-185 | `-(Rn)` steps Rn down first and then uses it |
| Pdp11Addr.StackAndPcStepWords | src/libxpeccy/cpu/1801vm1/1801vm1.c:163-164 | SP and PC step by a whole word even for a byte operand |
| Pdp11Addr.DeferredAutoincrement | src/libxpeccy/cpu/1801vm1/1801vm1.c:175-180 | `@(Rn)+` takes the address from the word Rn points at and steps Rn by 2 |
| Pdp11Addr.IndexMode | src/libxpeccy/cpu/1801vm1/1801vm1.c:193-200 | `E(Rn)` adds the word at PC to Rn, after PC has moved past that word |
| Pdp11Addr.AdrFrame | src/libxpeccy/cpu/1801vm1/1801vm1.c:161-212 | resolving an address changes only the registers and the cycle count (which does not decrease) |
| Pdp11Addr.AdrKeepsOthers | src/libxpeccy/cpu/1801vm1/1801vm1.c:161-212 | registers other than the one the mode names and PC keep their values |
| Pdp11Addr.SrcFrame | src/libxpeccy/cpu/1801vm1/1801vm1.c:214-229 | fetching an operand changes neither memory nor the PSW |
| Pdp11Addr.SrcLatches | src/libxpeccy/cpu/1801vm1/1801vm1.c:220-221 | fetching a memory operand latches its address in WZ |
| Pdp11Addr.DstKeepsPsw | src/libxpeccy/cpu/1801vm1/1801vm1.c:249-256 | storing a result leaves the PSW alone |
| Pdp11Addr.WriteBackOnce | src/libxpeccy/cpu/1801vm1/1801vm1.c:214-238 | a word written back after an operand fetch lands at the address the fetch used, and the registers are those after the fetch, so an autoincrement happens once |
| Pdp11Addr.ByteWriteBackOnce | src/libxpeccy/cpu/1801vm1/1801vm1.c:214-229 | the same for a byte result (with lines 240-247) |
| Pdp11Addr.ByteToRegister | src/libxpeccy/cpu/1801vm1/1801vm1.c:243-246 | a byte result written to a register replaces its low byte and keeps its high byte |
| Pdp11Addr.RegisterOperand | src/libxpeccy/cpu/1801vm1/1801vm1.c:217-219 | in register mode a word operand is the register itself and its write-back replaces it (with lines 235-237) |
| Pdp11Alu.ComTwice | src/libxpeccy/cpu/1801vm1/1801vm1.c:537-548 | COM applied twice gives the word back |
| Pdp11Alu.NegTwice | src/libxpeccy/cpu/1801vm1/1801vm1.c:582-591 | NEG applied twice gives the word back |
| Pdp11Alu.SwabTwice | src/libxpeccy/cpu/1801vm1/1801vm1.c:416-426 | SWAB applied twice gives the word back |
| Pdp11Alu.DecUndoesInc | src/libxpeccy/cpu/1801vm1/1801vm1.c:551-570 | DEC after INC gives the word back |
| Pdp11Alu.NegOverflow | src/libxpeccy/cpu/1801vm1/1801vm1.c:582-591 | NEG gives the two's complement and sets V exactly for 100000 (octal), the word it maps to itself |
| Pdp11Alu.RolUndoesRor | src/libxpeccy/cpu/1801vm1/1801vm1.c:638-663 | ROL, with the carry that ROR left behind, restores the word and the original carry |
| Pdp11Alu.RorUndoesRol | src/libxpeccy/cpu/1801vm1/1801vm1.c:638-663 | ROR, with the carry that ROL left behind, restores the word and the original carry |
| Pdp11Alu.AslDoubles | src/libxpeccy/cpu/1801vm1/1801vm1.c:679-688 | ASL doubles the word modulo 2^16 and moves its sign bit into C |
| Pdp11Alu.AsrKeepsSign | src/libxpeccy/cpu/1801vm1/1801vm1.c:666-676 | ASR keeps the sign bit and moves bit 0 into C |
| Pdp11Alu.AslAfterAsr | src/libxpeccy/cpu/1801vm1/1801vm1.c:666-688 | ASL after ASR loses exactly bit 0 |
| Pdp11Alu.AdcAddsCarry | src/libxpeccy/cpu/1801vm1/1801vm1.c:593-605 | ADC adds the carry, and sets C exactly when the carry was set and the word was 177777 |
| Pdp11Alu.SbcSubtractsCarry | src/libxpeccy/cpu/1801vm1/1801vm1.c:607-620 | SBC subtracts the carry, and sets C exactly when the carry was set and the word was 0 |
| Pdp11Alu.RolbUndoesRorb | src/libxpeccy/cpu/1801vm1/1801vm1.c:939-967 | ROLB, with the carry RORB left behind, restores the byte and the carry |
| Pdp11Alu.RorbUndoesRolb | src/libxpeccy/cpu/1801vm1/1801vm1.c:939-967 | RORB, with the carry ROLB left behind, restores the byte and the carry |
| Pdp11Alu.NegbFlags | src/libxpeccy/cpu/1801vm1/1801vm1.c:869-878 | NEGB sets C exactly for a non-zero byte and V exactly for 200 (octal) |
| Pdp11Alu.CompareEqual | src/libxpeccy/cpu/1801vm1/1801vm1.c:1241-1251 | after CMP, Z is set exactly when the operands are equal |
| Pdp11Alu.CompareBytesOrders | src/libxpeccy/cpu/1801vm1/1801vm1.c:1253-1262 | after CMPB, Z is set exactly when the bytes are equal, and N xor V exactly when the source is below the destination as signed bytes |
| Pdp11Alu.AddSum | src/libxpeccy/cpu/1801vm1/1801vm1.c:1353-1363 | ADD leaves the 16-bit sum |
| Pdp11Alu.AddCarry | src/libxpeccy/cpu/1801vm1/1801vm1.c:1353-1363 | ADD sets C exactly when the full sum does not fit in 16 bits |
| Pdp11Alu.SubUndoesAdd | src/libxpeccy/cpu/1801vm1/1801vm1.c:1353-1393 | SUB of the source from the sum that ADD of it stores gives back the destination |
| Pdp11Alu.SubEqual | src/libxpeccy/cpu/1801vm1/1801vm1.c:1379-1393 | after SUB, Z is set exactly when the operands are equal |
| Pdp11Alu.OverflowAsWritten | src/libxpeccy/cpu/1801vm1/1801vm1.c:1358-1360 | V as written: FFFF + FFFF sets it, 8000 + 8000 does not, and SUB of FFFF from 0001 sets it (with lines 1388-1391) |
| Pdp11Alu.BicClears | src/libxpeccy/cpu/1801vm1/1801vm1.c:1296-1305 | BIC clears in the destination exactly the bits the source sets, keeps the others, and keeps C |
| Pdp11Alu.BisSets | src/libxpeccy/cpu/1801vm1/1801vm1.c:1324-1333 | BIS sets in the destination exactly the bits the source sets, keeps the others, and keeps C |
| Pdp11Alu.BitTests | src/libxpeccy/cpu/1801vm1/1801vm1.c:1270-1278 | BIT sets Z exactly when the operands share no bit |
| Pdp11Alu.OppositesExclusive | src/libxpeccy/cpu/1801vm1/1801vm1.c:455-504 | of each pair of opposite conditional branches (BNE/BEQ, BGE/BLT, BGT/BLE, BPL/BMI, BHI/BLOS, BVC/BVS, BCC/BCS) exactly one is taken (with lines 742-795) |
| Pdp11Alu.BranchesAfterCompareByte | src/libxpeccy/cpu/1801vm1/1801vm1.c:455-504 | after CMPB s, d: BEQ is taken exactly when s = d, BLT/BGE/BLE/BGT compare s with d as signed bytes, and BCS/BLOS/BHI as unsigned bytes (with lines 756-767, 784-795, 1253-1262) |
| Pdp11Alu.OffsetIsTwiceByte | src/libxpeccy/cpu/1801vm1/1801vm1.c:441-446 | the branch displacement is the sign-extended low opcode byte added to itself |
| Pdp11Alu.OffsetSign | src/libxpeccy/cpu/1801vm1/1801vm1.c:441-446 | the displacement is even and negative exactly when the low byte is |
| Pdp11Alu.ClearSelected | src/libxpeccy/cpu/1801vm1/1801vm1.c:402-406 | CL clears exactly the condition codes selected by the low nibble of the opcode and changes nothing else in the PSW |
| Pdp11Alu.SetSelected | src/libxpeccy/cpu/1801vm1/1801vm1.c:409-413 | SE sets exactly the condition codes selected by the low nibble of the opcode and changes nothing else in the PSW |
| Pdp11Alu.MovePswKeepsT | src/libxpeccy/cpu/1801vm1/1801vm1.c:1007-1014 | MTPS loads C, V, Z, N and bit 7 from the source byte and keeps T, bit 10 and bit 11 |
| Pdp11Alu.PswByteSign | src/libxpeccy/cpu/1801vm1/1801vm1.c:1021-1034 | the word MFPS writes to a register has the low byte of the packed PSW and a high byte that repeats bit 7 |
| Pdp11Eis.JoinHalves | src/libxpeccy/cpu/1801vm1/1801vm1.c:1063-1064 | the register pair Rn:Rn+1 splits into the words it was joined from, and joins back to the same 32-bit value (with lines 1078, 1132, 1148-1149) |
| Pdp11Eis.Fits | src/libxpeccy/cpu/1801vm1/1801vm1.c:1063-1064 | a result a signed word can hold is its own low word, sign-extended |
| Pdp11Eis.MulCarryMissed | src/libxpeccy/cpu/1801vm1/1801vm1.c:1068 | 200 times 200 is 40000, which no signed word holds, yet the MUL carry as written stays clear while the corrected carry is set |
| Pdp11Eis.MulCarryClear | src/libxpeccy/cpu/1801vm1/1801vm1.c:1062-1068 | with the corrected bounds, a clear MUL carry means the low result word alone holds the product |
| Pdp11Eis.MulCarrySet | src/libxpeccy/cpu/1801vm1/1801vm1.c:1062-1068 | a product no signed word holds sets the corrected MUL carry |
| Pdp11Eis.DivTruncates | src/libxpeccy/cpu/1801vm1/1801vm1.c:1083-1084 | the DIV quotient rounds toward zero and the remainder keeps the dividend's sign, as C's `/` and `%` do |
| Pdp11Eis.DivOverflowMissed | src/libxpeccy/cpu/1801vm1/1801vm1.c:1089 | 40000 divided by 1 gives a quotient no signed word holds, yet V as written stays clear while the corrected V is set |
| Pdp11Eis.DivOverflowClear | src/libxpeccy/cpu/1801vm1/1801vm1.c:1083-1089 | with the corrected bounds, a clear V means the quotient register holds the whole quotient |
| Pdp11Eis.LeftIsShift | src/libxpeccy/cpu/1801vm1/1801vm1.c:1112-1116 | the left-shift loop of ASH computes `v << n` |
| Pdp11Eis.ZeroCount | src/libxpeccy/cpu/1801vm1/1801vm1.c:1104-1117 | a zero count changes neither the word nor C |
| Pdp11Eis.RightKeepsSign | src/libxpeccy/cpu/1801vm1/1801vm1.c:1106-1110 | the right-shift loop of ASH keeps the sign bit, so it is an arithmetic shift |
| Pdp11Eis.CountRange | src/libxpeccy/cpu/1801vm1/1801vm1.c:1100 | a count with bit 5 set gives 1 to 32 right shifts, and one without it 0 to 31 left shifts (with lines 1104-1105) |
| Pdp11Eis.LeftIsShift32 | src/libxpeccy/cpu/1801vm1/1801vm1.c:1142-1146 | the left-shift loop of ASHC computes the shift of the 32-bit pair |
| Pdp11Eis.RightKeepsSign32 | src/libxpeccy/cpu/1801vm1/1801vm1.c:1136-1140 | the right-shift loop of ASHC keeps the sign of the pair (the C `>>` of a signed int) |
| Pdp11Exec.QuietStep | src/libxpeccy/cpu/1801vm1/1801vm1.c:1432-1448 | with no enabled request pending, a step remembers PC, fetches the word at PC, moves PC past it, starts the count at 8 cycles and runs the handler the tables select for the word |
| Pdp11Exec.InterruptStep | src/libxpeccy/cpu/1801vm1/1801vm1.c:1435-1438 | with an enabled request pending, a step takes the 10 cycles of the interrupt cycle, fetches no opcode and keeps the opcode latch |
| Pdp11Exec.InterruptKeepsOpcode | src/libxpeccy/cpu/1801vm1/1801vm1.c:109-154 | serving an interrupt leaves the opcode latch alone |
| Pdp11Exec.TimerKeepsRegisters | src/libxpeccy/cpu/1801vm1/1801vm1.c:1403-1425 | the timer changes neither the registers nor the WAIT flag |
| Pdp11Exec.WaitResumes | src/libxpeccy/cpu/1801vm1/1801vm1.c:112-115 | a CPU halted in WAIT resumes on a pending IRQ1 or timer request: WAIT is cleared and PC moves past the WAIT instruction, and no other register changes (with lines 284-288) |
| Pdp11Exec.ResetStopsTimer | src/libxpeccy/cpu/1801vm1/1801vm1.c:323-329 | the step that executes RESET charges 448 cycles and, with the timer stopped, ends without running it (with lines 1404, 1451) |
| Pdp11Exec.ResetThenFetch | src/libxpeccy/cpu/1801vm1/1801vm1.c:59-70 | after a processor reset nothing is pending, so the first step fetches its opcode from the start page read at 177716 (octal) (with lines 1436-1443) |
| Pdp11Exec.Encode | src/libxpeccy/cpu/1801vm1/1801vm1.c:361-366 | the lowest opcode of each handler of the dispatch tables decodes back to that handler (with lines 428-433, 729-734, 1042-1047, 1186-1189, 1398-1401) |
| Pdp11Exec.SystemBase | src/libxpeccy/cpu/1801vm1/1801vm1.c:361-366 | HALT, WAIT, RTI, BPT, IOT, RESET, RTT and START are reached through the 000n table |
| Pdp11Exec.ControlBase | src/libxpeccy/cpu/1801vm1/1801vm1.c:428-433 | JMP, RTS, CL, SE, JSR and the one-operand control handlers are reached through the 00nx and 0nxx tables (with lines 729-734, 1398-1401) |
| Pdp11Exec.TrapOrByteBase | src/libxpeccy/cpu/1801vm1/1801vm1.c:1036 | EMT, TRAP, the byte one-operand handlers, MTPS and MFPS are reached through the 8nxx table (with lines 1042-1047) |
| Pdp11Exec.EisBase | src/libxpeccy/cpu/1801vm1/1801vm1.c:1186-1189 | MUL, DIV, ASH, ASHC, XOR and SOB are reached through the 7nxx table |
| Pdp11Exec.MoveBase | src/libxpeccy/cpu/1801vm1/1801vm1.c:1398-1401 | MOV, CMP, ADD, MOVB, CMPB and SUB are reached through the top table |
| Pdp11Exec.LogicBase | src/libxpeccy/cpu/1801vm1/1801vm1.c:1398-1401 | BIT, BIC, BIS and their byte forms are reached through the top table |
| Pdp11Exec.BranchCodes | src/libxpeccy/cpu/1801vm1/1801vm1.c:729-734 | every conditional branch is reached by its base opcode (with lines 1042-1047) |
| Pdp11Exec.WordCodes | src/libxpeccy/cpu/1801vm1/1801vm1.c:572 | every one-operand word handler is reached by its base opcode (with lines 631, 690, 723) |
| Pdp11Exec.ByteCodes | src/libxpeccy/cpu/1801vm1/1801vm1.c:858 | every one-operand byte handler is reached by its base opcode (with lines 928, 998) |
| Pdp11Exec.EncodeInjective | src/libxpeccy/cpu/1801vm1/1801vm1.c:1398-1401 | two handlers with the same base opcode are the same handler |
| Pdp11Exec.BranchOffset | src/libxpeccy/cpu/1801vm1/1801vm1.c:729-734 | a branch opcode decodes to its branch whatever its displacement byte (with lines 1042-1047) |
| Pdp11Exec.TopRowUndefined | src/libxpeccy/cpu/1801vm1/1801vm1.c:1400 | every opcode with the top four bits set is undefined |
| Pdp11Ops.Unsigned | src/libxpeccy/cpu/1801vm1/1801vm1.c:1079-1080 | the divisor taken as unsigned is 0 exactly when its word is 0 |
| Pdp11Ops.PairReg | src/libxpeccy/cpu/1801vm1/1801vm1.c:1077 | the DIV pair starts at an even register below R7 |
| Pdp11Ops.FaultPushes | src/libxpeccy/cpu/1801vm1/1801vm1.c:264-270 | a fault pushes PSW and PC, records its select code and enters its vector with MCIR 1 (with lines 91-107) |
| Pdp11Ops.TrapInstructions | src/libxpeccy/cpu/1801vm1/1801vm1.c:264-270 | an undefined opcode enters vector 010, BPT 014, IOT 020, EMT 030 and TRAP 034, each with its own select code (with lines 309-320, 800-811) |
| Pdp11Ops.JumpToRegister | src/libxpeccy/cpu/1801vm1/1801vm1.c:373-382 | JMP and JSR with a register operand have no target and fault through vector 4 (with lines 508-522) |
| Pdp11Ops.LowByteOfPsw | src/libxpeccy/cpu/1801vm1/1801vm1.c:296 | loading the low byte of a packed PSW keeps the condition codes, T and bit 7, and drops bits 10 and 11 (with line 335) |
| Pdp11Ops.RtiReturns | src/libxpeccy/cpu/1801vm1/1801vm1.c:291-306 | RTI right after a fault returns with the interrupted registers and PSW, except the bits above the low byte, which RTI does not reload |
| Pdp11Ops.RttReturns | src/libxpeccy/cpu/1801vm1/1801vm1.c:332-339 | RTT right after a fault returns in the same way, and always with T clear |
| Pdp11Ops.RtiTraceTrap | src/libxpeccy/cpu/1801vm1/1801vm1.c:300-305 | RTI of a PSW with T set traps at once through 014 with select code 3 |
| Pdp11Ops.WaitRepeats | src/libxpeccy/cpu/1801vm1/1801vm1.c:284-288 | WAIT sets the WAIT flag and moves PC back onto the instruction, changing neither memory nor the PSW |
| Pdp11Ops.StartLoads | src/libxpeccy/cpu/1801vm1/1801vm1.c:343-359 | START loads PC and PSW from 177674 and 177676 and clears bit 3 of the word at 177716 |
| Pdp11Ops.ClearStepBits | src/libxpeccy/cpu/1801vm1/1801vm1.c:347 | clearing the step bit clears bit 3 and keeps every other bit (with line 357) |
| Pdp11Ops.BranchTarget | src/libxpeccy/cpu/1801vm1/1801vm1.c:441-446 | a branch charges 12 cycles and, exactly when its condition holds, moves PC by twice the signed low opcode byte; memory and PSW are kept |
| Pdp11Ops.TargetIsTwiceByte | src/libxpeccy/cpu/1801vm1/1801vm1.c:441-446 | the branch target is PC plus twice the sign-extended low opcode byte |
| Pdp11Ops.SobCounts | src/libxpeccy/cpu/1801vm1/1801vm1.c:1177-1184 | SOB decrements its register and subtracts twice the six-bit field from PC unless the register has reached 0 |
| Pdp11Ops.WordsCount | src/libxpeccy/cpu/1801vm1/1801vm1.c:701-705 | the word count of MARK and SOB is twice the six-bit field: even and below 128 (with line 1182) |
| Pdp11Ops.JsrLinks | src/libxpeccy/cpu/1801vm1/1801vm1.c:508-522 | JSR Rn pushes Rn below the stack pointer left by resolving the target, puts the return address in Rn and the target in PC |
| Pdp11Ops.JsrRts | src/libxpeccy/cpu/1801vm1/1801vm1.c:386-397 | RTS Rn right after JSR Rn (Rn not SP) restores every register as JSR found it after resolving its target (with lines 508-522) |
| Pdp11Ops.MovStores | src/libxpeccy/cpu/1801vm1/1801vm1.c:1206-1213 | MOV to memory stores the source word at the destination address |
| Pdp11Ops.MovCodes | src/libxpeccy/cpu/1801vm1/1801vm1.c:1195-1213 | MOV sets N and Z from the word moved, clears V and keeps C |
| Pdp11Ops.SextByteHalves | src/libxpeccy/cpu/1801vm1/1801vm1.c:1218-1233 | a sign-extended byte keeps the byte as its low byte and repeats its sign in the high byte |
| Pdp11Ops.MovbToRegister | src/libxpeccy/cpu/1801vm1/1801vm1.c:1218-1233 | MOVB to a register sign-extends the byte into the whole register |
| Pdp11Ops.MovbStores | src/libxpeccy/cpu/1801vm1/1801vm1.c:1218-1233 | MOVB to memory stores the byte at the destination address |
| Pdp11Ops.TestsWriteNothing | src/libxpeccy/cpu/1801vm1/1801vm1.c:622-629 | CMP, CMPB, BIT, BITB, TST and TSTB leave memory as it was (with lines 919-926, 1241-1288) |
| Pdp11Ops.MulProduct | src/libxpeccy/cpu/1801vm1/1801vm1.c:1056-1070 | of the corrected MUL (the as-written carry test of line 1068 is in Findings): the pair holds the signed product, high word first, and C is set whenever the product does not fit a word |
| Pdp11Ops.MulFits | src/libxpeccy/cpu/1801vm1/1801vm1.c:1062-1068 | with the corrected carry clear, the odd register alone holds the product |
| Pdp11Ops.DivByZero | src/libxpeccy/cpu/1801vm1/1801vm1.c:1080-1081 | DIV by zero sets C and changes nothing beyond the operand fetch |
| Pdp11Ops.DivQuotient | src/libxpeccy/cpu/1801vm1/1801vm1.c:1077-1091 | DIV without (corrected) overflow leaves the whole quotient, rounded toward zero, in Rn and the remainder's low word in Rn+1, and clears V and C |
| Pdp11Ops.AshLeft | src/libxpeccy/cpu/1801vm1/1801vm1.c:1111-1118 | ASH left by a count below 16 shifts the register as `<<` does |
| Pdp11Ops.AshRight | src/libxpeccy/cpu/1801vm1/1801vm1.c:1104-1121 | ASH right keeps the sign of the register, so it never sets V |
| Pdp11Ops.ResetClears | src/libxpeccy/cpu/1801vm1/1801vm1.c:59-70 | after a processor reset R0-R6 are 0, PC has a zero low byte, no modelled PSW bit is set, nothing is pending or waiting and the timer is stopped |
| Pdp11Ops.PageAligned | src/libxpeccy/cpu/1801vm1/1801vm1.c:63 | the start page has a zero low byte and the high byte of the word read |
| Pdp11Core.Cpu.ReadWord | src/libxpeccy/cpu/1801vm1/1801vm1.c:46-48 | returns the word at the even address, as the word-read function gives it |
| Pdp11Core.Cpu.ReadByte | src/libxpeccy/cpu/1801vm1/1801vm1.c:51-54 | returns the byte the byte-read function gives |
| Pdp11Core.Cpu.WriteWord | src/libxpeccy/cpu/1801vm1/1801vm1.c:39-44 | the new fields are those of the word-write function (NOD 3) |
| Pdp11Core.Cpu.WriteByte | src/libxpeccy/cpu/1801vm1/1801vm1.c:26-36 | the new fields are those of the byte-write function |
| Pdp11Core.Cpu.PushWord | src/libxpeccy/cpu/1801vm1/1801vm1.c:72-75 | the new fields are those of the push function |
| Pdp11Core.Cpu.PopWord | src/libxpeccy/cpu/1801vm1/1801vm1.c:77-81 | the word and the new fields are those of the pop function |
| Pdp11Core.Cpu.TrapTo | src/libxpeccy/cpu/1801vm1/1801vm1.c:91-107 | the new fields are those of the trap function |
| Pdp11Core.Cpu.SaveContext | src/libxpeccy/cpu/1801vm1/1801vm1.c:92-103 | the new fields are those of the save step of a trap |
| Pdp11Core.Cpu.EnterVector | src/libxpeccy/cpu/1801vm1/1801vm1.c:104-106 | the new fields are those of the vector step of a trap |
| Pdp11Core.Cpu.Serve | src/libxpeccy/cpu/1801vm1/1801vm1.c:116-149 | the new fields are those of serving the given request |
| Pdp11Core.Cpu.Interrupt | src/libxpeccy/cpu/1801vm1/1801vm1.c:109-154 | the cycles and the new fields are those of the interrupt function |
| Pdp11Core.Cpu.Address | src/libxpeccy/cpu/1801vm1/1801vm1.c:161-212 | the address and the new fields are those of the address function |
| Pdp11Core.Cpu.AddressPlain | src/libxpeccy/cpu/1801vm1/1801vm1.c:168-174 | the address and the new fields are those of the address function, for `@Rn`, `(Rn)+` and `-(Rn)` (with lines 181-185) |
| Pdp11Core.Cpu.AddressDeferred | src/libxpeccy/cpu/1801vm1/1801vm1.c:175-180 | the address and the new fields are those of the address function, for the deferred modes (with lines 186-192) |
| Pdp11Core.Cpu.AddressIndexed | src/libxpeccy/cpu/1801vm1/1801vm1.c:193-209 | the address and the new fields are those of the address function, for the index modes |
| Pdp11Core.Cpu.Source | src/libxpeccy/cpu/1801vm1/1801vm1.c:214-229 | the operand and the new fields are those of the operand function |
| Pdp11Core.Cpu.WriteResult | src/libxpeccy/cpu/1801vm1/1801vm1.c:232-238 | the new fields are those of the word write-back function |
| Pdp11Core.Cpu.WriteResultByte | src/libxpeccy/cpu/1801vm1/1801vm1.c:240-247 | the new fields are those of the byte write-back function |
| Pdp11Core.Cpu.Destination | src/libxpeccy/cpu/1801vm1/1801vm1.c:249-256 | the new fields are those of the store function |
| Pdp11Core.Cpu.Fault | src/libxpeccy/cpu/1801vm1/1801vm1.c:264-270 | the new fields are those of the fault function |
| Pdp11Core.Cpu.Wait | src/libxpeccy/cpu/1801vm1/1801vm1.c:284-288 | the new fields are those of the WAIT function |
| Pdp11Core.Cpu.Rti | src/libxpeccy/cpu/1801vm1/1801vm1.c:291-306 | the new fields are those of the RTI function |
| Pdp11Core.Cpu.TraceTrap | src/libxpeccy/cpu/1801vm1/1801vm1.c:300-305 | the new fields are those of the T-bit check after RTI |
| Pdp11Core.Cpu.Unwind | src/libxpeccy/cpu/1801vm1/1801vm1.c:293-298 | the new fields, apart from the cycle count, are those of the frame reload of RTI and RTT (with lines 333-336) |
| Pdp11Core.Cpu.ResetBus | src/libxpeccy/cpu/1801vm1/1801vm1.c:323-329 | the new fields are those of the RESET instruction function |
| Pdp11Core.Cpu.Rtt | src/libxpeccy/cpu/1801vm1/1801vm1.c:332-339 | the new fields are those of the RTT function |
| Pdp11Core.Cpu.Start | src/libxpeccy/cpu/1801vm1/1801vm1.c:343-359 | the new fields are those of the START function |
| Pdp11Core.Cpu.Jmp | src/libxpeccy/cpu/1801vm1/1801vm1.c:373-382 | the new fields are those of the JMP function |
| Pdp11Core.Cpu.Rts | src/libxpeccy/cpu/1801vm1/1801vm1.c:386-397 | the new fields are those of the RTS function |
| Pdp11Core.Cpu.Unlink | src/libxpeccy/cpu/1801vm1/1801vm1.c:386-397 | the new fields are those of RTS Rn proper |
| Pdp11Core.Cpu.Cl | src/libxpeccy/cpu/1801vm1/1801vm1.c:402-406 | the new fields are those of the CL function |
| Pdp11Core.Cpu.Se | src/libxpeccy/cpu/1801vm1/1801vm1.c:409-413 | the new fields are those of the SE function |
| Pdp11Core.Cpu.Branch | src/libxpeccy/cpu/1801vm1/1801vm1.c:441-504 | the new fields are those of the branch function for the condition (with lines 742-795) |
| Pdp11Core.Cpu.Jsr | src/libxpeccy/cpu/1801vm1/1801vm1.c:508-522 | the new fields are those of the JSR function |
| Pdp11Core.Cpu.Clr | src/libxpeccy/cpu/1801vm1/1801vm1.c:525-534 | the new fields are those of the CLR function |
| Pdp11Core.Cpu.OneWord | src/libxpeccy/cpu/1801vm1/1801vm1.c:416-426 | the new fields are those of the one-operand word function (with lines 537-620, 638-688) |
| Pdp11Core.Cpu.Tst | src/libxpeccy/cpu/1801vm1/1801vm1.c:622-629 | the new fields are those of the TST function |
| Pdp11Core.Cpu.Mark | src/libxpeccy/cpu/1801vm1/1801vm1.c:701-705 | the new fields are those of the MARK function |
| Pdp11Core.Cpu.Sxt | src/libxpeccy/cpu/1801vm1/1801vm1.c:715-721 | the new fields are those of the SXT function |
| Pdp11Core.Cpu.Clrb | src/libxpeccy/cpu/1801vm1/1801vm1.c:818-824 | the new fields are those of the CLRB function |
| Pdp11Core.Cpu.OneByte | src/libxpeccy/cpu/1801vm1/1801vm1.c:827-917 | the new fields are those of the one-operand byte function (with lines 939-996) |
| Pdp11Core.Cpu.Tstb | src/libxpeccy/cpu/1801vm1/1801vm1.c:919-926 | the new fields are those of the TSTB function |
| Pdp11Core.Cpu.Mtps | src/libxpeccy/cpu/1801vm1/1801vm1.c:1007-1014 | the new fields are those of the MTPS function |
| Pdp11Core.Cpu.Mfps | src/libxpeccy/cpu/1801vm1/1801vm1.c:1021-1034 | the new fields are those of the MFPS function |
| Pdp11Core.Cpu.Mul | src/libxpeccy/cpu/1801vm1/1801vm1.c:1056-1070 | the new fields are those of the MUL function |
| Pdp11Core.Cpu.SetPair | src/libxpeccy/cpu/1801vm1/1801vm1.c:1063-1064 | Rn and Rn+1 take the high and the low word, as the pair function says (with lines 1085-1086, 1148-1149) |
| Pdp11Core.Cpu.Div | src/libxpeccy/cpu/1801vm1/1801vm1.c:1073-1093 | the new fields are those of the DIV function |
| Pdp11Core.Cpu.Ash | src/libxpeccy/cpu/1801vm1/1801vm1.c:1096-1123 | the new fields are those of the ASH function |
| Pdp11Core.Cpu.ShiftWord | src/libxpeccy/cpu/1801vm1/1801vm1.c:1104-1117 | the shifted word and C are those of the arithmetic shift function, and no other flag changes |
| Pdp11Core.Cpu.SetReg | src/libxpeccy/cpu/1801vm1/1801vm1.c:1118 | Rn takes the word, as the register function says |
| Pdp11Core.Cpu.ShiftWordRight | src/libxpeccy/cpu/1801vm1/1801vm1.c:1106-1110 | the loop leaves the word and C that the right-shift function gives, with the counter at 0 and no other flag changed |
| Pdp11Core.Cpu.ShiftWordLeft | src/libxpeccy/cpu/1801vm1/1801vm1.c:1112-1116 | the loop leaves the word and C that the left-shift function gives, with the counter at 0 and no other flag changed |
| Pdp11Core.Cpu.Ashc | src/libxpeccy/cpu/1801vm1/1801vm1.c:1126-1154 | the new fields are those of the ASHC function |
| Pdp11Core.Cpu.ShiftPair | src/libxpeccy/cpu/1801vm1/1801vm1.c:1134-1147 | the shifted pair and C are those of the pair shift function, and no other flag changes |
| Pdp11Core.Cpu.ShiftPairRight | src/libxpeccy/cpu/1801vm1/1801vm1.c:1136-1140 | the loop leaves the pair and C that the 32-bit right-shift function gives, with the counter at 0 |
| Pdp11Core.Cpu.ShiftPairLeft | src/libxpeccy/cpu/1801vm1/1801vm1.c:1142-1146 | the loop leaves the pair and C that the 32-bit left-shift function gives, with the counter at 0 |
| Pdp11Core.Cpu.Xor | src/libxpeccy/cpu/1801vm1/1801vm1.c:1157-1164 | the new fields are those of the XOR function |
| Pdp11Core.Cpu.Sob | src/libxpeccy/cpu/1801vm1/1801vm1.c:1177-1184 | the new fields are those of the SOB function |
| Pdp11Core.Cpu.Mov | src/libxpeccy/cpu/1801vm1/1801vm1.c:1206-1213 | the new fields are those of the MOV function |
| Pdp11Core.Cpu.Movb | src/libxpeccy/cpu/1801vm1/1801vm1.c:1218-1233 | the new fields are those of the MOVB function |
| Pdp11Core.Cpu.Cmp | src/libxpeccy/cpu/1801vm1/1801vm1.c:1241-1251 | the new fields are those of the CMP function |
| Pdp11Core.Cpu.Cmpb | src/libxpeccy/cpu/1801vm1/1801vm1.c:1253-1262 | the new fields are those of the CMPB function |
| Pdp11Core.Cpu.LogicW | src/libxpeccy/cpu/1801vm1/1801vm1.c:1270-1278 | the new fields are those of the BIT, BIC or BIS function (with lines 1296-1305, 1324-1333) |
| Pdp11Core.Cpu.LogicB | src/libxpeccy/cpu/1801vm1/1801vm1.c:1280-1288 | the new fields are those of the BITB, BICB or BISB function (with lines 1307-1316, 1335-1344) |
| Pdp11Core.Cpu.Add | src/libxpeccy/cpu/1801vm1/1801vm1.c:1353-1370 | the new fields are those of the ADD function |
| Pdp11Core.Cpu.Sub | src/libxpeccy/cpu/1801vm1/1801vm1.c:1379-1393 | the new fields are those of the SUB function |
| Pdp11Core.Cpu.ExecuteSystem | src/libxpeccy/cpu/1801vm1/1801vm1.c:361-370 | for a handler of the 000n table, the new fields are those the dispatch function gives |
| Pdp11Core.Cpu.ExecuteControl | src/libxpeccy/cpu/1801vm1/1801vm1.c:428-437 | for a handler of the 00nx and 0nxx tables, the new fields are those the dispatch function gives (with lines 729-739) |
| Pdp11Core.Cpu.ExecuteSingle | src/libxpeccy/cpu/1801vm1/1801vm1.c:572-576 | for a one-operand word handler, the new fields are those the dispatch function gives (with lines 631-635, 690-694, 723-727) |
| Pdp11Core.Cpu.ExecuteBytes | src/libxpeccy/cpu/1801vm1/1801vm1.c:858-862 | for a handler of the 8nxx table, the new fields are those the dispatch function gives (with lines 928-932, 998-1002, 1036-1051) |
| Pdp11Core.Cpu.ExecuteExtended | src/libxpeccy/cpu/1801vm1/1801vm1.c:1186-1193 | for a handler of the 7nxx table, the new fields are those the dispatch function gives |
| Pdp11Core.Cpu.ExecuteDouble | src/libxpeccy/cpu/1801vm1/1801vm1.c:1398-1401 | for a two-operand handler, the new fields are those the dispatch function gives |
| Pdp11Core.Cpu.Dispatch | src/libxpeccy/cpu/1801vm1/1801vm1.c:1398-1401 | the new fields are those of running the handler the tables select (with line 1443) |
| Pdp11Core.Cpu.TickTimer | src/libxpeccy/cpu/1801vm1/1801vm1.c:1407-1423 | one period of the timer loop changes the timer and the timer request as the tick function says, and nothing else |
| Pdp11Core.Cpu.RunTimer | src/libxpeccy/cpu/1801vm1/1801vm1.c:1403-1425 | the new fields are those of the timer function, for a timer that is stopped or whose loop ends |
| Pdp11Core.Cpu.Fetch | src/libxpeccy/cpu/1801vm1/1801vm1.c:1439-1441 | the new fields are those of the fetch function |
| Pdp11Core.Cpu.Finish | src/libxpeccy/cpu/1801vm1/1801vm1.c:1451-1452 | reports a hang exactly when the timer loop could never end, and otherwise the cycles and fields of the finished step |
| Pdp11Core.Cpu.Step | src/libxpeccy/cpu/1801vm1/1801vm1.c:1427-1453 | reports a hang exactly when the step function does (a timer loop that could never end), and otherwise returns the cycles and leaves the fields of the step function |
| Pdp11Core.Cpu.ClearRegisters | src/libxpeccy/cpu/1801vm1/1801vm1.c:60-61 | R0-R6 become 0 and PC is kept |
| Pdp11Core.Cpu.Reset | src/libxpeccy/cpu/1801vm1/1801vm1.c:59-70 | the new fields are those of the processor reset function |
| Pdp11Core.UnsignedLow | src/libxpeccy/cpu/1801vm1/1801vm1.c:1079 | the low word of the zero-extended divisor is the divisor word |
| Pdp11Dasm.CatchAllLast | src/libxpeccy/cpu/1801vm1/1801vm1.c:1529-1612 | the table has its 82 rows in source order and ends with the catch-all row "undef" of mask 0 |
| Pdp11Dasm.FirstFrom | src/libxpeccy/cpu/1801vm1/1801vm1.c:1680-1681 | the walk from row i stops at a row that matches (or the catch-all row), and every row before it misses |
| Pdp11Dasm.First | src/libxpeccy/cpu/1801vm1/1801vm1.c:1680-1681 | the row found for an opcode is a matching row (or the catch-all row), and no row before it matches |
| Pdp11Dasm.Lookup | src/libxpeccy/cpu/1801vm1/1801vm1.c:1675 | the index loop ends at the first row that matches (with lines 1680-1681) |
| Pdp11Dasm.Mnemonic | src/libxpeccy/cpu/1801vm1/1801vm1.c:1677-1682 | the opcode is read low byte first at `qadr & 0xffff` and the next address, and the template and flag are those of the row the lookup finds (with line 1737) |
| Pdp11Dasm.FirstIs | src/libxpeccy/cpu/1801vm1/1801vm1.c:1680-1681 | a matching row with no matching row before it is the row the lookup finds |
| Pdp11Dasm.FirstPast | src/libxpeccy/cpu/1801vm1/1801vm1.c:1680-1681 | rows that all miss are walked past: in a + b the lookup ends in b, at b's own first match |
| Pdp11Dasm.Tails | src/libxpeccy/cpu/1801vm1/1801vm1.c:1529-1612 | the table is its system, control, one-operand, two-operand, EIS, high-branch and byte parts in order, with those row counts |
| Pdp11Dasm.SystemMisses | src/libxpeccy/cpu/1801vm1/1801vm1.c:1530-1538 | the HALT .. STOP rows name only opcodes 000000 .. 000017 |
| Pdp11Dasm.ControlMisses | src/libxpeccy/cpu/1801vm1/1801vm1.c:1539-1551 | the control rows name only opcodes below 004000 |
| Pdp11Dasm.OneOperandMisses | src/libxpeccy/cpu/1801vm1/1801vm1.c:1552-1568 | the one-operand word rows (JSR among them) name only opcodes below 010000 |
| Pdp11Dasm.TwoOperandMisses | src/libxpeccy/cpu/1801vm1/1801vm1.c:1569-1574 | the two-operand word rows name only opcodes 010000 .. 067777 |
| Pdp11Dasm.EisMisses | src/libxpeccy/cpu/1801vm1/1801vm1.c:1575-1580 | the EIS rows name only opcodes 070000 .. 077777 |
| Pdp11Dasm.HighBranchMisses | src/libxpeccy/cpu/1801vm1/1801vm1.c:1581-1588 | the branch rows 100000 .. 103777 miss EMT and TRAP opcodes |
| Pdp11Dasm.EisBeforeSob | src/libxpeccy/cpu/1801vm1/1801vm1.c:1575-1579 | the EIS rows before SOB miss every SOB opcode |
| Pdp11Dasm.BptIotShown | src/libxpeccy/cpu/1801vm1/1801vm1.c:1533-1534 | 000003 is shown as skipable "bpt" and 000004 as skipable "iot" |
| Pdp11Dasm.PastSystem | src/libxpeccy/cpu/1801vm1/1801vm1.c:1530-1538 | for every opcode above 000017 the lookup walks past the nine system rows (with lines 1680-1681) |
| Pdp11Dasm.PastControl | src/libxpeccy/cpu/1801vm1/1801vm1.c:1539-1551 | from 004000 on it walks past the control rows (with lines 1680-1681) |
| Pdp11Dasm.PastOneOperand | src/libxpeccy/cpu/1801vm1/1801vm1.c:1552-1568 | from 010000 on it walks past the one-operand rows (with lines 1680-1681) |
| Pdp11Dasm.PastTwoOperand | src/libxpeccy/cpu/1801vm1/1801vm1.c:1569-1574 | for 07xxxx and from 100000 on it walks past the two-operand rows (with lines 1680-1681) |
| Pdp11Dasm.PastEis | src/libxpeccy/cpu/1801vm1/1801vm1.c:1575-1580 | from 100000 on it walks past the EIS rows (with lines 1680-1681) |
| Pdp11Dasm.JsrShown | src/libxpeccy/cpu/1801vm1/1801vm1.c:1552-1553 | JSR is shown as "call" when the link register is PC and as "jsr" otherwise, skipable either way |
| Pdp11Dasm.SobShown | src/libxpeccy/cpu/1801vm1/1801vm1.c:1580 | SOB is shown by its own row, skipable |
| Pdp11Dasm.TrapShown | src/libxpeccy/cpu/1801vm1/1801vm1.c:1589-1590 | EMT and TRAP opcodes are shown by their rows, skipable |
| Pdp11Dasm.RtsShown | src/libxpeccy/cpu/1801vm1/1801vm1.c:1540-1541 | RTS is shown as "ret" for RTS PC and as "rts" for the other registers |
| Pdp11Dasm.TableSkipsOnly | src/libxpeccy/cpu/1801vm1/1801vm1.c:1529-1612 | only rows naming BPT, IOT, JSR, SOB, EMT or TRAP carry the skipable flag |
| Pdp11Dasm.BptOpcode | src/libxpeccy/cpu/1801vm1/1801vm1.c:361-366 | the executor runs BPT for exactly the opcode 000003 |
| Pdp11Dasm.IotOpcode | src/libxpeccy/cpu/1801vm1/1801vm1.c:361-366 | the executor runs IOT for exactly the opcode 000004 |
| Pdp11Dasm.JsrOpcodes | src/libxpeccy/cpu/1801vm1/1801vm1.c:729-734 | the executor runs JSR for exactly the opcodes 004rdd |
| Pdp11Dasm.SobOpcodes | src/libxpeccy/cpu/1801vm1/1801vm1.c:1186-1189 | the executor runs SOB for exactly the opcodes 077rnn |
| Pdp11Dasm.EmtOpcodes | src/libxpeccy/cpu/1801vm1/1801vm1.c:1042-1047 | the executor runs EMT for exactly the opcodes 1040xx .. 1043xx |
| Pdp11Dasm.TrapOpcodes | src/libxpeccy/cpu/1801vm1/1801vm1.c:1042-1047 | the executor runs TRAP for exactly the opcodes 1044xx .. 1047xx |
| Pdp11Dasm.SkipPatternStepsOver | src/libxpeccy/cpu/1801vm1/1801vm1.c:1533-1534 | the opcodes of the skipable rows are exactly those the executor runs as traps, calls and SOB (with lines 1552-1553, 1580, 1589-1590) |
| Pdp11Dasm.SkipableIffStepsOver | src/libxpeccy/cpu/1801vm1/1801vm1.c:1680-1681 | the disassembler flags an opcode as skipable exactly when the executor runs it as BPT, IOT, JSR, SOB, EMT or TRAP (with line 1737) |
| Pdp11Dasm.ShownOffsetIsOffset | src/libxpeccy/cpu/1801vm1/1801vm1.c:1699-1702 | the displacement `:e` shows is the one the branch handler adds |
| Pdp11Dasm.BranchShownIsTarget | src/libxpeccy/cpu/1801vm1/1801vm1.c:1699-1705 | the branch target shown is the one the branch handler jumps to from the PC after the fetch (with lines 441-446) |
| Pdp11Dasm.LoopShownIsTarget | src/libxpeccy/cpu/1801vm1/1801vm1.c:1707-1711 | the SOB target `:j` shows is where SOB sends PC when its counter does not reach 0, from the PC after the fetch (with lines 1177-1184) |
| Pdp11Dasm.CodeLettersNamed | src/libxpeccy/cpu/1801vm1/1801vm1.c:1713-1719 | C, V, Z and N are shown exactly for the bits set in the low nibble, and "0" exactly when none is |
| Pdp11Dasm.ClearShown | src/libxpeccy/cpu/1801vm1/1801vm1.c:402-406 | the letters shown for CL are exactly the condition codes it clears (with lines 1713-1719) |
| Pdp11Dasm.SetShown | src/libxpeccy/cpu/1801vm1/1801vm1.c:409-413 | the letters shown for SE are exactly the condition codes it sets (with lines 1713-1719) |
| I286Facts.RealModeChecksPass | src/libxpeccy/cpu/i80286/i80286_nop.c:65-92 | with MSW.PE clear the limit, execute, read and write checks all pass, and so does the IOPL check (with i286_check_iopl, lines 531-535) |
| I286Facts.SystemSegmentClosed | src/libxpeccy/cpu/i80286/i80286_nop.c:71-92 | in protected mode a system segment (AR bit 4 clear) is neither executable, readable nor writeable |
| I286Facts.CodeSegmentRights | src/libxpeccy/cpu/i80286/i80286_nop.c:71-92 | a code segment is executable and never writeable, and readable exactly when its R bit is set |
| I286Facts.DataSegmentRights | src/libxpeccy/cpu/i80286/i80286_nop.c:71-92 | a data segment is readable and never executable, and writeable exactly when its W bit is set |
| I286Facts.WriteableIsReadable | src/libxpeccy/cpu/i80286/i80286_nop.c:78-92 | every segment that passes the write check passes the read check |
| I286Facts.LimitCheck | src/libxpeccy/cpu/i80286/i80286_nop.c:65-69 | in protected mode an offset passes the limit check exactly when it is at most the segment limit |
| I286Facts.IoplCheck | src/libxpeccy/cpu/i80286/i80286_nop.c:531-535 | in protected mode CLI and STI are allowed exactly when CPL is at most IOPL |
| I286Facts.DescriptorLossless | src/libxpeccy/cpu/i80286/i80286_nop.c:263-294 | the cached segment built from the six descriptor bytes gives all six bytes back: the limit, the 24-bit base and the access byte |
| I286Facts.DescriptorKinds | src/libxpeccy/cpu/i80286/i80286_nop.c:263-294 | every decoded descriptor is exactly one of system, code and data; system ones are marked readable and writeable and never expand-down; code is never writeable and readable by R; data is readable and writeable by W; DPL is below 4 and P is AR bit 7 |
| I286Facts.ChecksAgreeWithDescriptor | src/libxpeccy/cpu/i80286/i80286_nop.c:71-92 | on a cached descriptor the protected-mode read and write checks pass exactly for a non-system segment marked readable or writeable, and the execute check exactly for code |
| I286Facts.RealModeCashSeg | src/libxpeccy/cpu/i80286/i80286_nop.c:297-324 | in real mode loading a selector gives base selector << 4, limit FFFF and the selector itself, and changes no state |
| I286Facts.ProtectedCashSegFault | src/libxpeccy/cpu/i80286/i80286_nop.c:297-324 | in protected mode loading a selector faults with #GP(table offset) exactly when the table offset lies past the limit of the GDT or LDT it names; the state is unchanged either way |
| I286Facts.TableSelection | src/libxpeccy/cpu/i80286/i80286_nop.c:297-324 | a selector with TI (bit 2) set names the LDT, otherwise the GDT |
| I286Facts.ProtectedCashSegLoad | src/libxpeccy/cpu/i80286/i80286_nop.c:297-324 | a protected-mode selector load that succeeds reads the descriptor at the table base plus the table offset, and keeps that offset as the segment's index |
| I286Facts.DescriptorAddress | src/libxpeccy/cpu/i80286/i80286_nop.c:297-324 | the descriptor address is the selected table's base plus the selector with its low three bits cleared |
| I286Facts.PushShortStack | src/libxpeccy/cpu/i80286/i80286_nop.c:148-155 | in protected mode a push with SP below 2 raises #SS and changes nothing |
| I286Facts.NeighbourBytes | src/libxpeccy/cpu/i80286/i80286_nop.c:94-100 | two neighbouring offsets of one segment are distinct physical bytes, also across the wrap from FFFF to 0 |
| I286Facts.MwrDone | src/libxpeccy/cpu/i80286/i80286_nop.c:201-213 | a completed byte write stores the byte at segment base plus offset and nothing else; the real-mode bus adds a cycle (with i286_mwr_real, lines 140-144) |
| I286Facts.MwrChecks | src/libxpeccy/cpu/i80286/i80286_nop.c:201-213 | a protected-mode byte write completes exactly when the segment is writeable and the offset within its limit |
| I286Facts.MrdDone | src/libxpeccy/cpu/i80286/i80286_nop.c:186-199 | a completed byte read yields the byte at segment base plus offset and changes only the clock (with i286_mrd_real, lines 134-138) |
| I286Facts.MrdChecks | src/libxpeccy/cpu/i80286/i80286_nop.c:186-199 | a protected-mode byte read completes exactly when the segment is readable and the offset within its limit |
| I286Facts.PushSteps | src/libxpeccy/cpu/i80286/i80286_nop.c:148-155 | a completed push passed the short-stack test and is two byte writes below the old SP, low byte first |
| I286Facts.PushLayout | src/libxpeccy/cpu/i80286/i80286_nop.c:148-155 | a completed push lowers SP by 2, stores the low byte at SS:SP and the high byte at SS:SP+1, and keeps every other register, the segments, the flags and the system part |
| I286Facts.PushedWithinLimit | src/libxpeccy/cpu/i80286/i80286_nop.c:148-155 | in protected mode a completed push leaves a word at the new SP that lies within the limit of a readable stack segment |
| I286Facts.StackByteRead | src/libxpeccy/cpu/i80286/i80286_nop.c:186-199 | a stack read whose checks pass completes with the byte at SS:adr and changes only the clock |
| I286Facts.PopReads | src/libxpeccy/cpu/i80286/i80286_nop.c:157-166 | a pop whose checks pass yields the word at SS:SP, low byte first, and raises SP by 2, changing no other register |
| I286Facts.PopAfterPush | src/libxpeccy/cpu/i80286/i80286_nop.c:148-166 | of the corrected pop limit test (the as-written test of lines 157-166 is in Findings): a pop right after a completed push returns the pushed word and restores every register |
| I286Facts.PopExamplePush | src/libxpeccy/cpu/i80286/i80286_nop.c:148-155 | in the example stack (limit FF, SP 100) a push completes and leaves SP = FE under protection |
| I286Facts.PopAsWrittenFaultsAtTop | src/libxpeccy/cpu/i80286/i80286_nop.c:157-166 | as written, i286_pop faults with #SS on the word at SP = FE of a stack whose limit is FF, although both bytes are within the limit |
| I286Facts.PopLimitAsWritten | src/libxpeccy/cpu/i80286/i80286_nop.c:157-166 | in the example a push completes and the model's pop returns the pushed word, but i286_pop as written raises the stack fault instead |
| I286AluFacts.Inc8Flags | src/libxpeccy/cpu/i80286/i80286_nop.c:1179-1188 | INC of a byte gives the next value; O is set iff the operand was 7F, A iff its low digit was F, Z iff it was FF; C and the other flags are kept |
| I286AluFacts.Dec8Flags | src/libxpeccy/cpu/i80286/i80286_nop.c:1243-1251 | DEC of a byte gives the value before; O is set iff the operand was 80, A iff its low digit was 0, Z iff it was 01; C and the other flags are kept |
| I286AluFacts.Inc16Flags | src/libxpeccy/cpu/i80286/i80286_nop.c:1190-1199 | INC of a word: the next value, O iff the operand was 7FFF, A iff its low digit was F, Z iff it was FFFF; C kept |
| I286AluFacts.Dec16Flags | src/libxpeccy/cpu/i80286/i80286_nop.c:1253-1261 | DEC of a word: the value before, O iff the operand was 8000, A iff its low digit was 0, Z iff it was 0001; C kept |
| I286AluFacts.IncDecInverse | src/libxpeccy/cpu/i80286/i80286_nop.c:1179-1261 | DEC undoes INC on the value, for bytes and for words |
| I286AluFacts.AluOrder | src/libxpeccy/cpu/i80286/i80286_nop.c:1580-1597 | the reg field numbers the group operations ADD OR ADC SBB AND SUB XOR CMP, and only CMP does not store its result |
| I286AluFacts.CmpIsSub | src/libxpeccy/cpu/i80286/i80286_nop.c:1590-1596 | CMP computes exactly what SUB computes, flags included; the two differ only in whether the result is written back |
| I286AluFacts.CarryIn | src/libxpeccy/cpu/i80286/i80286_nop.c:1583-1588 | ADC and SBB feed the carry flag into the adder and subtractor, ADD does not |
| I286AluFacts.CondPairs | src/libxpeccy/cpu/i80286/i80286_nop.c:1546-1577 | each odd Jcc opcode 71..7F jumps exactly when the even opcode below it does not |
| I286AluFacts.CondMeaning | src/libxpeccy/cpu/i80286/i80286_nop.c:1558-1577 | JBE tests C or Z, JL tests S != O, JLE is JE or JL and JG is neither |
| I286AluFacts.CbwExtends | src/libxpeccy/cpu/i80286/i80286_nop.c:1785-1787 | CBW makes AX the signed value of AL, keeping AL and every other register |
| I286AluFacts.CwdExtends | src/libxpeccy/cpu/i80286/i80286_nop.c:1790-1792 | CWD fills DX with the sign bit of AX, keeping every other register |
| I286AluFacts.SahfLahf | src/libxpeccy/cpu/i80286/i80286_nop.c:1903-1908 | LAHF after SAHF gives AH back; SAHF keeps the high flag byte and the low-byte bits outside S, Z, A, P and C (with LAHF, lines 1911-1915) |
| I286AluFacts.LahfSahf | src/libxpeccy/cpu/i80286/i80286_nop.c:1903-1915 | SAHF of the AH that LAHF produced gives the flag word back |
| I286AluFacts.DaaAddsDecimal | src/libxpeccy/cpu/i80286/i80286_nop.c:978-995 | of the corrected DAA (the as-written high-digit test is in Findings): after the binary addition of two packed BCD bytes AL holds the packed BCD digits of their decimal sum and C the decimal carry |
| I286AluFacts.DaaAsWrittenMisses | src/libxpeccy/cpu/i80286/i80286_nop.c:978-995 | for BCD 99 + 61 the DAA as written leaves 00 with C clear, where the decimal sum 160 needs 60 with C set, which the corrected DAA gives |
| I286AluFacts.TruncDivMeaning | src/libxpeccy/cpu/i80286/i80286_nop.c:2662-2677 | the division helpers follow C: the quotient rounds toward zero and the remainder is smaller than the divisor and has the dividend's sign |
| I286AluFacts.ImulWordCarry | src/libxpeccy/cpu/i80286/i80286_nop.c:2713-2720 | the corrected IMUL ew clears C and O exactly when the product DX:AX fits in AX as a signed word, and O equals C |
| I286AluFacts.ImulWordAsWrittenCarry | src/libxpeccy/cpu/i80286/i80286_nop.c:2713-2720 | IMUL ew as written sets C and O for FFFF times 1, whose product -1 fits in AX, because DX = FFFF is compared with 00FF; the corrected IMUL clears them |
| I286AluFacts.RotTimes8Split | src/libxpeccy/cpu/i80286/i80286_nop.c:2161-2173 | repeating a byte rotate m + n times is repeating it m times and then n times (the step behind I286OpsFacts.ShiftsCompose) |
| I286AluFacts.RotTimes16Split | src/libxpeccy/cpu/i80286/i80286_nop.c:2175-2185 | the same for the word rotate |
| I286AluFacts.ShiftCountBound | src/libxpeccy/cpu/i80286/i80286_nop.c:2164 | only five bits of the count are used: at most 31 repeats, a count and that count plus 32 repeat alike, and 32 repeats nothing |
| I286AluFacts.RotOrder | src/libxpeccy/cpu/i80286/i80286_nop.c:2151-2159 | the reg field selects ROL ROR RCL RCR SAL SHR SAL SAR, /6 being SAL like /4 |
| I286EaFacts.RegisterForm | src/libxpeccy/cpu/i80286/i80286_nop.c:600-672 | mod 11 names the register in r/m: no memory is accessed, nothing is fetched after the ModRM byte, and the state is unchanged |
| I286EaFacts.ByteDisplacement | src/libxpeccy/cpu/i80286/i80286_nop.c:600-672 | mod 01 adds the sign-extended byte after the ModRM byte to the register sum of r/m |
| I286EaFacts.WordDisplacement | src/libxpeccy/cpu/i80286/i80286_nop.c:600-672 | mod 10 adds the word after the ModRM byte to the register sum of r/m |
| I286EaFacts.DirectAddress | src/libxpeccy/cpu/i80286/i80286_nop.c:600-672 | mod 00 with r/m 110 takes the word after the ModRM byte as the offset itself, in DS |
| I286EaFacts.NoDisplacement | src/libxpeccy/cpu/i80286/i80286_nop.c:600-672 | mod 00 otherwise uses the register sum alone and fetches nothing more |
| I286EaFacts.DefaultSegment | src/libxpeccy/cpu/i80286/i80286_nop.c:600-672 | the default segment of a memory operand is SS for r/m 010 and 011, and for 110 unless mod is 00; DS for every other form |
| I286EaFacts.GetEaFetchesModRm | src/libxpeccy/cpu/i80286/i80286_nop.c:600-672 | i286_get_ea reads the ModRM byte at CS:IP and resolves the operand it names from the state after that fetch |
| I286EaFacts.RegRoundTrip | src/libxpeccy/cpu/i80286/i80286_nop.c:539-595 | setting the register named by the reg field and reading it back gives the value, cut to a byte for a byte register |
| I286EaFacts.ByteRegReads | src/libxpeccy/cpu/i80286/i80286_nop.c:569-595 | a byte register reads back the byte written to it |
| I286EaFacts.ByteRegOthers | src/libxpeccy/cpu/i80286/i80286_nop.c:569-595 | writing one byte register leaves every other byte register alone, the other half of the same word included |
| I286EaFacts.WordRegOthers | src/libxpeccy/cpu/i80286/i80286_nop.c:569-595 | writing one word register leaves the other seven alone |
| I286EaFacts.ByteHalves | src/libxpeccy/cpu/i80286/i80286_nop.c:539-567 | AL..BL are the low and AH..BH the high halves of AX..BX: writing one half keeps the other |
| I286EaFacts.RdEaReads | src/libxpeccy/cpu/i80286/i80286_nop.c:675-681 | i286_rd_ea yields the value at the location i286_get_ea resolved and changes nothing else but the clock |
| I286EaFacts.ReadMemReads | src/libxpeccy/cpu/i80286/i80286_nop.c:675-681 | a memory operand read that completes yields the bytes at the offset, the segment override applied, and changes only the clock |
| I286EaFacts.WriteThenRead | src/libxpeccy/cpu/i80286/i80286_nop.c:684-713 | what i286_wr_ea stores is what is then found at the location, for registers and memory at both widths |
| I286EaFacts.WriteMemReads | src/libxpeccy/cpu/i80286/i80286_nop.c:684-713 | a memory write that completes leaves the value's bytes at the offset and its successor and keeps the override |
| I286EaFacts.WrEaRegister | src/libxpeccy/cpu/i80286/i80286_nop.c:684-713 | writing a register operand changes only the register named by r/m |
| I286OpsFacts.StringStepKeeps | src/libxpeccy/cpu/i80286/i80286_nop.c:1954-1964 | one iteration of a string operation changes no register but SI and DI, no segment and no control state, so CX and IP are left to the REP templates |
| I286OpsFacts.UnprefixedRunsOnce | src/libxpeccy/cpu/i80286/i80286_nop.c:1475-1477 | without a REP prefix i286_rep and i286_rep_fz run the operation once (with lines 1991-1994) |
| I286OpsFacts.PrefixedIdleOnZeroCount | src/libxpeccy/cpu/i80286/i80286_nop.c:1475-1486 | with a REP prefix and CX = 0 neither template does anything (with lines 1991-2003) |
| I286OpsFacts.RepeatIteration | src/libxpeccy/cpu/i80286/i80286_nop.c:1475-1486 | with a prefix and CX != 0, i286_rep runs the operation, lowers CX, and sends IP back to the start of the instruction exactly when the lowered CX is not zero |
| I286OpsFacts.RepeatFzIteration | src/libxpeccy/cpu/i80286/i80286_nop.c:1991-2003 | with a prefix and CX != 0, i286_rep_fz lowers CX first, runs the operation, and repeats exactly when CX is not zero and Z is set under REPZ, clear under REPNZ |
| I286OpsFacts.StringIndexAtTop | src/libxpeccy/cpu/i80286/i80286_nop.c:1981-1988 | the word string forms with SI or DI at FFFF push a zero and raise #GP before any iteration |
| I286OpsFacts.AdvanceBack | src/libxpeccy/cpu/i80286/i80286_nop.c:1954-1964 | moving an index one element in one direction and then back gives it back, for bytes and words |
| I286OpsFacts.JumpTaken | src/libxpeccy/cpu/i80286/i80286_nop.c:1537-1544 | i286_jr always fetches the displacement; when the condition holds IP gains the sign-extended displacement and 4 cycles pass, otherwise nothing more happens |
| I286OpsFacts.LoopCount | src/libxpeccy/cpu/i80286/i80286_nop.c:2491-2494 | LOOP lowers CX and jumps exactly when CX was not 1 |
| I286OpsFacts.CmpToEaStoresNothing | src/libxpeccy/cpu/i80286/i80286_nop.c:1123-1132 | CMP ea,reg changes only the flags, set as SUB sets them, and writes nothing back |
| I286OpsFacts.Group1CmpStoresNothing | src/libxpeccy/cpu/i80286/i80286_nop.c:1580-1597 | the 80..83 group with reg field 7 changes only the flags, as SUB would set them |
| I286OpsFacts.PushPopReg | src/libxpeccy/cpu/i80286/i80286_nop.c:1304-1381 | POP reg after PUSH reg restores every register, SP included: PUSH SP pushes the SP it started from |
| I286OpsFacts.PushPopSeg | src/libxpeccy/cpu/i80286/i80286_nop.c:762-770 | in real mode POP sreg after PUSH sreg gives back the same segment register and every general register |
| I286OpsFacts.PopStoreWrites | src/libxpeccy/cpu/i80286/i80286_nop.c:1722-1730 | the corrected 8F writes the popped word where the ModRM byte points, the r/m register included |
| I286OpsFacts.PopRegisterFormAsWritten | src/libxpeccy/cpu/i80286/i80286_nop.c:1722-1730 | 8F as written with a register operand sets the reg-field register: 8F C1 leaves CX untouched and overwrites AX |
| I286OpsFacts.ShiftByZero | src/libxpeccy/cpu/i80286/i80286_nop.c:2161-2185 | a count whose low five bits are zero leaves the operand, the flags and the cycle count unchanged, at both widths |
| I286OpsFacts.ShiftsCompose | src/libxpeccy/cpu/i80286/i80286_nop.c:2161-2185 | a shift by c1 followed by a shift of the same kind by c2, applied to the first result, is one shift by c1 + c2, cycles included, as long as the repeats stay below 32, at both widths (of the corrected word rotate) |
| I286OpsFacts.ShiftCyclesAgree | src/libxpeccy/cpu/i80286/i80286_nop.c:2161-2185 | the corrected byte and word rotates both charge one cycle per repeat |
| I286OpsFacts.WordShiftCyclesAsWritten | src/libxpeccy/cpu/i80286/i80286_nop.c:2175-2185 | i286_rotsh16 as written charges the scratch byte tmpb instead of the masked count: C1 with count 21 rotates once but costs 33 cycles, and D1 costs whatever an earlier instruction left there |
| I286OpsFacts.ShiftStoresResult | src/libxpeccy/cpu/i80286/i80286_nop.c:2196-2201 | a completed corrected word shift leaves the rotated operand where the ModRM byte points |
| I286OpsFacts.PopfPrivilege | src/libxpeccy/cpu/i80286/i80286_nop.c:1869-1900 | POPF under protection never changes N, changes IOPL only at CPL 0 and I only when CPL is at most the resulting IOPL; every other flag comes from the popped word |
| I286OpsFacts.InterruptFlagPrivilege | src/libxpeccy/cpu/i80286/i80286_nop.c:2771-2788 | CLI and STI change only I when CPL is at most IOPL and otherwise push a zero and raise #GP; in real mode they always succeed |
| I286OpsFacts.HaltCondition | src/libxpeccy/cpu/i80286/i80286_nop.c:2604-2611 | HLT halts and stays on itself exactly when no enabled request is pending or I is clear; otherwise no register changes |
| I286OpsFacts.WaitFaults | src/libxpeccy/cpu/i80286/i80286_nop.c:1846-1855 | WAIT raises #NM exactly when MP is set, else #MF when the x87 status has bit 7, else nothing; its TS-and-MP branch is never reached |
| I286OpsFacts.LeaForms | src/libxpeccy/cpu/i80286/i80286_nop.c:1701-1708 | LEA of a memory operand loads the offset into the reg-field register and reads no memory; of a register operand it raises #UD |
| I286OpsFacts.RegisterOperandForms | src/libxpeccy/cpu/i80286/i80286_nop.c:1409-1422 | BOUND of a register operand raises #UD; LES and LDS of a register operand use a stale address the model does not carry (with lines 2216-2235) |
| I286OpsFacts.BoundInRange | src/libxpeccy/cpu/i80286/i80286_nop.c:1409-1422 | BOUND of a memory operand completes exactly when the register lies within both signed bounds, and raises #BR otherwise |
| I286OpsFacts.AamByZero | src/libxpeccy/cpu/i80286/i80286_nop.c:2424-2436 | AAM with a zero base raises the divide error after the immediate is read, changing nothing else |
| I286OpsFacts.WordIdivRangeTestInert | src/libxpeccy/cpu/i80286/i80286_nop.c:2736-2749 | IDIV ew as written fails only for a zero divisor: its range test divides -1 or 0 by the operand and so never fires |
| I286OpsFacts.XchgAxTwice | src/libxpeccy/cpu/i80286/i80286_nop.c:1736-1782 | XCHG AX,reg done twice gives back the state |
| I286OpsFacts.EnterCopyMoves | src/libxpeccy/cpu/i80286/i80286_nop.c:2260-2265 | one nesting copy of ENTER lowers BP and SP by 2, changes no other register, and leaves at SS:SP the word read at DS:BP after BP was lowered |
| I286OpsFacts.EnterCopiesMove | src/libxpeccy/cpu/i80286/i80286_nop.c:2259-2266 | the nesting copies of ENTER move BP and SP down together, by 2 per copy |
| I286OpsFacts.EnterCopiesKeep | src/libxpeccy/cpu/i80286/i80286_nop.c:2259-2266 | the nesting copies change no register but BP and SP, and no segment |
| I286OpsFacts.LeaveAfterFlatEnter | src/libxpeccy/cpu/i80286/i80286_nop.c:2254-2277 | LEAVE after an ENTER of level 0 completes and gives back every register of the state before ENTER |
| I286ProtFacts.SwitchTaskEnds | src/libxpeccy/cpu/i80286/i80286_nop.c:330-346 | the entry of a task switch always ends the step with the state unchanged, and ends in the switch exactly when the entry checks pass: a non-null GDT selector, a present TSS, the privilege test and the available-TSS test outside IRET |
| I286ProtFacts.SwitchFromIret | src/libxpeccy/cpu/i80286/i80286_nop.c:330-346 | the switch back of IRET skips the privilege and busy tests: a present TSS named by a GDT selector is enough |
| I286ProtFacts.RealModeGate | src/libxpeccy/cpu/i80286/i80286_nop.c:518-526 | in real mode i286_check_gate only loads the real-mode segment, whose limit lets every offset through |
| I286ProtFacts.CheckGateKeeps | src/libxpeccy/cpu/i80286/i80286_nop.c:414-527 | i286_check_gate changes nothing but the override prefix, which only a call gate sets, to its target code segment |
| I286ProtFacts.DirectConforming | src/libxpeccy/cpu/i80286/i80286_nop.c:423-440 | a direct transfer to a conforming code segment goes through exactly when its DPL is at most CPL, it is present and the offset is within its limit |
| I286ProtFacts.DirectNonConforming | src/libxpeccy/cpu/i80286/i80286_nop.c:423-440 | a direct transfer to a non-conforming code segment goes through exactly when RPL is at most CPL, DPL equals CPL, it is present and the offset is within its limit |
| I286ProtFacts.CallGateTarget | src/libxpeccy/cpu/i80286/i80286_nop.c:461-490 | a call gate that goes through passed the privilege test and was present; it leads to a present code segment at the gate's entry offset within that segment's limit, with at most 31 parameter words, and sets the override to that segment |
| I286ProtFacts.CallGateDeniedParts | src/libxpeccy/cpu/i80286/i80286_nop.c:462 | the call-gate privilege test as written compares DPL with CPL twice and never looks at RPL; the intended test adds exactly the condition DPL < RPL |
| I286ProtFacts.CallGatePrivilegeAsWrittenMisses | src/libxpeccy/cpu/i80286/i80286_nop.c:462 | at CPL 0, through a gate of DPL 1 with a selector of RPL 2, the test as written lets the call through, the intended one refuses it |
| I286ProtFacts.CallGateRefusesRpl | src/libxpeccy/cpu/i80286/i80286_nop.c:461-464 | with the intended test a call gate whose DPL is below the selector's RPL raises #GP(selector) before anything else |
| I286ProtFacts.GateEntryBytes | src/libxpeccy/cpu/i80286/i80286_nop.c:467-469 | of the corrected gate decoding (as written, lines 467-468 swap offset and selector; see Findings): the entry point is the offset in bytes 0-1 and the selector in bytes 2-3, and the parameter count is the low five bits of byte 4 |
| I286ProtFacts.GateEntryAsWrittenSwaps | src/libxpeccy/cpu/i80286/i80286_nop.c:467-468 | as written the offset and the selector of a call gate trade places |
| I286ProtFacts.GateEntryAsWrittenMisreads | src/libxpeccy/cpu/i80286/i80286_nop.c:467-468 | a gate to offset 1234 of selector 0008 sends the call, as written, to offset 0008 of selector 1234 |
| I286ProtFacts.TrapGateTarget | src/libxpeccy/cpu/i80286/i80286_nop.c:503-515 | of the corrected gate decoding (as written, lines 510-511 swap offset and selector; see Findings): a trap or interrupt gate that goes through passed the privilege test and was present, and leads to the code segment its selector loads, at its entry offset, changing no state |
| I286ProtFacts.TrapGateAsWrittenMisreads | src/libxpeccy/cpu/i80286/i80286_nop.c:510-511 | an interrupt gate to offset 1234 of selector 0008 is entered, as written, at offset 0008 of selector 1234 |
| I286ProtFacts.RealModeJmpf | src/libxpeccy/cpu/i80286/i80286_nop.c:2539-2548 | a real-mode far jump sets IP and loads CS as a real-mode segment, changing nothing else |
| I286ProtFacts.ProtectedJmpf | src/libxpeccy/cpu/i80286/i80286_nop.c:2539-2548 | a protected-mode far jump that completes lands on the target i286_check_gate returned, keeping the rest of the state but the override |
| I286ProtFacts.InnerCallLoads | src/libxpeccy/cpu/i80286/i80286_nop.c:1799-1818 | the inter-level part of a call through a gate leaves CS:IP at the target |
| I286ProtFacts.CallfReturnAddress | src/libxpeccy/cpu/i80286/i80286_nop.c:1795-1836 | a call through a gate to a more privileged level should push the caller's CS:IP as return address, but as written it pushes the target's own CS:IP (lines 1807-1808 run before 1825-1826) |
| I286ProtFacts.CallfOtherPaths | src/libxpeccy/cpu/i80286/i80286_nop.c:1795-1836 | on every other path the model of i286_callf and the as-written one agree |
| I286ProtFacts.RealModeCallf | src/libxpeccy/cpu/i80286/i80286_nop.c:1828-1834 | a real-mode far call pushes CS and then IP, loads CS as a real-mode segment, jumps to the new offset and sets the cycle count to 41 |
| I286ProtFacts.SameLevelAsWrittenOnlyAtZero | src/libxpeccy/cpu/i80286/i80286_nop.c:2340 | as written IRET takes the same-level path only at CPL 0, since (selector >> 3) & 0x60 is 0, 20, 40 or 60 |
| I286ProtFacts.SameLevelAsWrittenMisses | src/libxpeccy/cpu/i80286/i80286_nop.c:2340 | an IRET at CPL 3 to a selector of RPL 3 (001B) is a return to the same level, but as written it goes down the outer-level path |
| I286ProtFacts.IretAsWrittenNullFrame | src/libxpeccy/cpu/i80286/i80286_nop.c:2337-2343 | as written a protected-mode IRET without NT raises #GP(0) whenever the word at SS:2 is 0, whatever frame lies at SS:SP |
| I286ProtFacts.PopIsStackWord | src/libxpeccy/cpu/i80286/i80286_nop.c:157-166 | a completed pop returns the word at the top of the stack and changes only SP and the cycle counter |
| I286ProtFacts.CashSegSame | src/libxpeccy/cpu/i80286/i80286_nop.c:297-324 | the segment a selector loads depends only on the system part and memory, and loading changes no state |
| I286ProtFacts.PopFrameTakesFrame | src/libxpeccy/cpu/i80286/i80286_nop.c:2337-2358 | the pops of a protected-mode IRET that complete take IP and CS from the frame at the top of the stack, the frame the corrected IRET checks |
| I286TabFacts.Generation286 | src/libxpeccy/cpu/i80286/i80286_nop.c:3089-3346 | an 80286 runs the handler i80286_tab names for every opcode byte |
| I286TabFacts.Generation8086 | src/libxpeccy/cpu/i80286/i80286_nop.c:2973-3085 | an 8086 finds no handler behind any entry that depends on the CPU generation |
| I286TabFacts.Generation186 | src/libxpeccy/cpu/i80286/i80286_nop.c:2973-3085 | an 80186 lacks, among those entries, exactly the 0F page and ARPL |
| I286TabFacts.UndefinedEntries | src/libxpeccy/cpu/i80286/i80286_nop.c:3089-3346 | the entries that name i8086_nodef are exactly the 80386 prefixes 64..67 and SALC (D6) |
| I286TabFacts.PrefixEntries | src/libxpeccy/cpu/i80286/i80286_nop.c:3089-3346 | every prefix entry sets a prefix state (0F page, segment override, LOCK, REP) or has no handler |
| I286TabFacts.AluRowsMatchGroup | src/libxpeccy/cpu/i80286/i80286_nop.c:3089-3346 | row k of the ALU block 00..3D runs, in its six forms, the operation reg field k selects in group 80..83 |
| I286TabFacts.BranchPairs | src/libxpeccy/cpu/i80286/i80286_nop.c:3089-3346 | the entries 70..7F are conditional jumps in pairs, the odd one jumping exactly when the even one does not |
| I286TabFacts.SegmentColumn | src/libxpeccy/cpu/i80286/i80286_nop.c:3089-3346 | 06/07, 16/17 and 1E/1F push and pop ES, SS and DS, 0E pushes CS, and 0F is the 0F page rather than POP CS |
| I286TabFacts.SegmentPrefixes | src/libxpeccy/cpu/i80286/i80286_nop.c:3089-3346 | 26, 2E, 36 and 3E are the segment overrides for ES, CS, SS and DS |
| I286Core.Cpu.RotSh8 | src/libxpeccy/cpu/i80286/i80286_nop.c:2161-2173 | the cycle count gains the masked count, and the operand and flags become those of the rotate repeated that many times, as the function RotSh8 states |
| I286Core.Cpu.RotSh16 | src/libxpeccy/cpu/i80286/i80286_nop.c:2175-2185 | the corrected word rotate loop: the fields after it are those of the function RotSh16, one cycle per repeat |
| I286Core.Cpu.Shift | src/libxpeccy/cpu/i80286/i80286_nop.c:2188-2201 | C0, C1 and D0..D3 on the fields: operand read, count, repeated rotate and write-back, as the function Shift states (with lines 2396-2421) |
| I286Core.Cpu.EnterCopies | src/libxpeccy/cpu/i80286/i80286_nop.c:2259-2266 | the ENTER nesting loop on the fields ends in the state of the function EnterCopies, stopping at the first fault |
| I286Core.Cpu.Enter | src/libxpeccy/cpu/i80286/i80286_nop.c:2254-2271 | C8 ENTER on the fields ends in the state of the function Enter |
| I286Core.Cpu.EnterFrame | src/libxpeccy/cpu/i80286/i80286_nop.c:2257-2270 | ENTER after its operands are read: BP pushed, the nesting copies, the frame pointer pushed, BP set and SP lowered by the size, as the function EnterFrame states |
| I286Core.Cpu.CopyParams | src/libxpeccy/cpu/i80286/i80286_nop.c:1812-1817 | the parameter copy of a gate call writes the n bytes above the old stack top to the new stack, upward, and changes nothing else |
| I286Core.Cpu.Step | src/libxpeccy/cpu/i80286/i80286_nop.c:3089-3346 | one opcode: the handler the table names for the CPU generation, run on the fields, leaves them as the model's step does, the looping handlers included |
| Z80Tables.HalfCarryTables | src/libxpeccy/cpu/Z80/z80_tab.c:3-4 | FHaddTab and FHsubTab, indexed by an operand bit, the other operand's bit and the result bit, give exactly the carry and the borrow out of that bit position |
| Z80Tables.OverflowTables | src/libxpeccy/cpu/Z80/z80_tab.c:5-6 | FVaddTab and FVsubTab, indexed by the two operands' sign bits and the result's, give exactly the signed overflow of addition and of subtraction |
| Z80Tables.OverflowTableEntries | src/libxpeccy/cpu/Z80/z80_tab.c:5-6 | FVaddTab is 1 only at indices 3 and 4, FVsubTab only at 1 and 6 |
| Z80Tables.TableRule | src/libxpeccy/cpu/Z80/z80_tab.c:10-523 | every one of the 128 rows of daaTab holds, for its flag group and its sixteen accumulator values, the flags and result of the decimal-adjust rule |
| Z80Tables.DaaPairRule | src/libxpeccy/cpu/Z80/z80_tab.c:10-523 | the pair of daaTab for group g and accumulator a is the DAA output for a with C, N and H taken from bits 0, 1 and 2 of g |
| Z80Tables.Group | src/libxpeccy/cpu/Z80/z80nop.c:298 | the group index C, N << 1, H << 2 is below 8 and its three bits give back C, N and H |
| Z80Tables.DaaIndex | src/libxpeccy/cpu/Z80/z80nop.c:298 | the offset 2 (A + 0x100 group) is even, inside the 0x1000-byte table, and encodes the group in bits 9 up and A in bits 1 to 8 |
| Z80Tables.DaaIndexFields | src/libxpeccy/cpu/Z80/z80nop.c:298 | the offset and the byte after it both decode to the same group and accumulator, the second being the odd byte of the pair |
| Z80Tables.DaaBytes | src/libxpeccy/cpu/Z80/z80nop.c:297-301 | the two bytes npr27 loads are the flags and the result of decimal-adjusting A under the current C, N and H |
| Z80Tables.DaaResultFlags | src/libxpeccy/cpu/Z80/z80_tab.c:10-523 | after DAA the S, F5 and F3 bits of F equal those of the result, and Z is set exactly when the result is 0 |
| Z80Tables.DaaCarryFlags | src/libxpeccy/cpu/Z80/z80_tab.c:10-523 | DAA keeps N, and sets C exactly when C was set or A was above 0x99 |
| Z80Tables.DaaTableFlags | src/libxpeccy/cpu/Z80/z80_tab.c:10-523 | in every stored pair S, F5 and F3 copy the stored result, Z marks a zero result and N is the group's input N |
| Z80Tables.DaaSpotEntries | src/libxpeccy/cpu/Z80/z80_tab.c:11-139 | four concrete pairs: A = 00, 0A and 9A with no flags in, and A = 00 with N in |
| Z80Tables.DaaSpotBytes | src/libxpeccy/cpu/Z80/z80_tab.c:11-139 | the same four pairs read as bytes of the flat table at offsets 0, 0x14, 0x134 and 0x400 |
| Z80.UnpackPack | src/libxpeccy/cpu/Z80/z80nop.c:297-299 | unpacking the F byte that packing the flags built gives back every flag |
| Z80.PackUnpack | src/libxpeccy/cpu/Z80/z80nop.c:297-299 | every F byte is the packing of the flags it unpacks to, so z80_set_flag loses nothing |
| Z80.FetchWord | src/libxpeccy/cpu/Z80/z80nop.c:56-59 | a word operand is the byte at PC (low) and at PC + 1 (high), and PC moves past both |
| Z80.PushLayout | src/libxpeccy/cpu/Z80/z80nop.c:33-38 | z80_push stores the high byte just below SP and the low byte below that, and SP drops by 2 |
| Z80.PushBytes | src/libxpeccy/cpu/Z80/z80nop.c:33-38 | the two bytes z80_push stores, located by the SP it starts from, wrapping round 64K |
| Z80.PushFrame | src/libxpeccy/cpu/Z80/z80nop.c:33-38 | z80_push leaves every other byte of memory as it was |
| Z80.PushRegs | src/libxpeccy/cpu/Z80/z80nop.c:33-38 | z80_push changes no register but SP, which steps down twice |
| Z80.PopRegs | src/libxpeccy/cpu/Z80/z80nop.c:26-31 | z80_pop changes no register but SP, which steps up twice, and no memory |
| Z80.PopAfterPush | src/libxpeccy/cpu/Z80/z80nop.c:26-38 | a pop after a push returns the pushed word and restores every register; memory keeps the pushed bytes |
| Z80.CallPushes | src/libxpeccy/cpu/Z80/z80nop.c:40-44 | z80_call puts PC and WZ at the target and stores the return address below SP, high byte first |
| Z80.CallThenRet | src/libxpeccy/cpu/Z80/z80nop.c:40-49 | z80_ret after z80_call restores PC and SP, with WZ left at the return address |
| Z80.PopIgnoresPc | src/libxpeccy/cpu/Z80/z80nop.c:26-31 | the word popped and the state after the pop do not depend on PC |
| Z80.RlcaShape | src/libxpeccy/cpu/Z80/z80nop.c:89-96 | RLCA changes only A and F; bit 7 goes into C and into bit 0; S, Z and P/V are kept, H and N cleared |
| Z80.RrcaShape | src/libxpeccy/cpu/Z80/z80nop.c:138-145 | RRCA changes only A and F; bit 0 goes into C and into bit 7 |
| Z80.RlaShape | src/libxpeccy/cpu/Z80/z80nop.c:192-200 | RLA changes only A and F; bit 7 goes into C and the old C into bit 0 |
| Z80.RraShape | src/libxpeccy/cpu/Z80/z80nop.c:242-250 | RRA changes only A and F; bit 0 goes into C and the old C into bit 7 |
| Z80.RrcaUndoesRlca | src/libxpeccy/cpu/Z80/z80nop.c:89-145 | RRCA after RLCA gives back A |
| Z80.RlcaUndoesRrca | src/libxpeccy/cpu/Z80/z80nop.c:89-145 | RLCA after RRCA gives back A |
| Z80.RraUndoesRla | src/libxpeccy/cpu/Z80/z80nop.c:192-250 | RRA after RLA gives back A and C |
| Z80.RlaUndoesRra | src/libxpeccy/cpu/Z80/z80nop.c:192-250 | RLA after RRA gives back A and C |
| Z80.CplShape | src/libxpeccy/cpu/Z80/z80nop.c:347-353 | CPL inverts A, sets H and N and keeps S, Z, P/V and C; applied twice it gives back A |
| Z80.ScfShape | src/libxpeccy/cpu/Z80/z80nop.c:407-413 | SCF sets C, clears H and N, keeps A, S, Z and P/V |
| Z80.CcfShape | src/libxpeccy/cpu/Z80/z80nop.c:458-464 | CCF inverts C and moves the old C into H, clears N, keeps A, S, Z and P/V |
| Z80.CarrySequences | src/libxpeccy/cpu/Z80/z80nop.c:407-464 | CCF after SCF leaves C clear and H set; two CCFs give back C |
| Z80.DaaReadsTable | src/libxpeccy/cpu/Z80/z80nop.c:297-301 | the flags and A loaded from daaTab are those of the decimal-adjust rule the model states |
| Z80.DaaFlags | src/libxpeccy/cpu/Z80/z80nop.c:297-301 | after DAA S, F5 and F3 follow the new A, Z is set iff A is 0, N is kept, C is set iff it was set or A was above 0x99, and only A and F change |
| Z80.SextBytes | src/libxpeccy/cpu/Z80/z80nop.c:203-208 | the jump displacement is sign-extended: its low byte is kept and the high byte is 00 or FF |
| Z80.JrEffect | src/libxpeccy/cpu/Z80/z80nop.c:253-260 | JR cc adds the displacement to the address after it, with WZ following and 5 more T-states, exactly when the condition holds; otherwise only the operand is passed; memory is untouched (with npr18, npr28, npr30 and npr38) |
| Z80.DjnzCounter | src/libxpeccy/cpu/Z80/z80nop.c:148-156 | DJNZ lowers B by one and keeps C, memory, DE and A |
| Z80.DjnzBranches | src/libxpeccy/cpu/Z80/z80nop.c:148-156 | DJNZ jumps by the displacement, with WZ following and 5 more T-states, exactly when B does not reach 0; otherwise it passes the operand |
| Z80.JpEffect | src/libxpeccy/cpu/Z80/z80nop.c:629-633 | JP cc,nn always loads WZ with nn; PC gets nn when the condition holds and passes the operand otherwise; memory and T-states are kept |
| Z80.CallEffect | src/libxpeccy/cpu/Z80/z80nop.c:643-651 | CALL cc,nn, when taken, spends one T-state and calls nn with the address after the operand as return address; otherwise only WZ = nn and PC passes the operand |
| Z80.RetEffect | src/libxpeccy/cpu/Z80/z80nop.c:618-621 | RET cc pops into PC and WZ exactly when the condition holds, and otherwise changes nothing |
| Z80.ExAfInvolutive | src/libxpeccy/cpu/Z80/z80nop.c:99-104 | EX AF,AF' done twice gives back the state |
| Z80.ExchangesInvolutive | src/libxpeccy/cpu/Z80/z80nop.c:779-783 | EXX done twice gives back the state, and so does EX DE,HL (with nprEB, lines 896-898) |
| Z80.ExSpHlEffect | src/libxpeccy/cpu/Z80/z80nop.c:844-849 | EX (SP),HL loads HL and WZ from the word at SP, stores the old HL there low byte first, keeps SP and spends 3 T-states |
| Z80.HaltStays | src/libxpeccy/cpu/Z80/z80nop.c:527-533 | HALT sets the halt flag and moves PC back onto the HALT |
| Z80.HaltOnce | src/libxpeccy/cpu/Z80/z80nop.c:527-533 | the halt signal is raised by the first HALT only; a repeated HALT raises none |
| Z80.InterruptEnables | src/libxpeccy/cpu/Z80/z80nop.c:1000-1005 | EI sets IFF1, IFF2, NOINT and the Z80 interrupt enable and nothing else; DI clears IFF1, IFF2 and the enable, keeping NOINT (with nprF3, lines 947-951) |
| Z80.AddHlEffect | src/libxpeccy/cpu/Z80/z80nop.c:106-109 | ADD HL,rr leaves in HL and F what the adder gives for HL and rr, WZ one past the old HL, and changes nothing else |
| Z80.StoreThenLoadA | src/libxpeccy/cpu/Z80/z80nop.c:62-66 | LD A,(rr) after LD (rr),A for BC or DE gives back A, with WZ one past rr (with npr0A, lines 112-115) |
| Z80.StoreThenLoadHl | src/libxpeccy/cpu/Z80/z80nop.c:269-274 | loading HL from nn after storing HL there gives back HL (with npr2A, lines 319-324) |
| Z80.LoadHlEffect | src/libxpeccy/cpu/Z80/z80nop.c:319-324 | LD HL,(nn) reads L from nn and H from nn + 1, WZ ends at nn + 1, and PC passes the operand; memory is kept |
| Z80.StoreHlEffect | src/libxpeccy/cpu/Z80/z80nop.c:269-274 | LD (nn),HL writes L at nn and H at nn + 1 and no other byte |
| Z80.PushThenPop | src/libxpeccy/cpu/Z80/z80nop.c:624-656 | POP rr after PUSH rr restores every register, AF included |
| Z80.RestorePair | src/libxpeccy/cpu/Z80/z80nop.c:624-626 | writing a register pair with the value it holds changes no register, AF going through F's packing |
| Z80.PrefixEntries | src/libxpeccy/cpu/Z80/z80nop.c:1036-1324 | an npTab entry carries OF_PREFIX and a sub-table exactly when its handler is one of the CB, DD, ED and FD prefixes |
| Z80.PrefixSelects | src/libxpeccy/cpu/Z80/z80nop.c:687-689 | a prefix opcode only selects its page of opcodes for the next fetch (with nprDD, nprED and nprFD) |
| Z80.JumpEntries | src/libxpeccy/cpu/Z80/z80nop.c:1036-1324 | OF_RELJUMP marks exactly DJNZ and the JRs; OF_SKIPABLE exactly DJNZ, HALT, the CALLs and the RSTs |
| Z80.AddressEntries | src/libxpeccy/cpu/Z80/z80nop.c:1036-1324 | OF_MEMADR marks exactly the four (nn) loads and stores, OF_MWORD exactly the two that move HL |
| Z80.CycleEntries | src/libxpeccy/cpu/Z80/z80nop.c:1036-1324 | the base cycle count is 11 exactly for ADD HL,rr, 6 for INC/DEC rr and LD SP,HL, 5 for DJNZ, RET cc, PUSH and RST, and 4 otherwise |
| Z80Core.Cpu.Mrd | src/libxpeccy/cpu/Z80/z80nop.c:22 | a memory read returns the byte the memory map holds at the address |
| Z80Core.Cpu.Mwr | src/libxpeccy/cpu/Z80/z80nop.c:23 | a memory write stores the byte at the address and changes nothing else |
| Z80Core.Cpu.FetchByte | src/libxpeccy/cpu/Z80/z80nop.c:84-86 | an operand fetch reads the byte at PC and advances PC |
| Z80Core.Cpu.FetchWord | src/libxpeccy/cpu/Z80/z80nop.c:56-59 | a word fetch is two byte fetches, low byte first |
| Z80Core.Cpu.Push | src/libxpeccy/cpu/Z80/z80nop.c:33-38 | the fields after z80_push are the pushed state of the model |
| Z80Core.Cpu.Pop | src/libxpeccy/cpu/Z80/z80nop.c:26-31 | z80_pop returns the word and the state of the model's pop |
| Z80Core.Cpu.Call | src/libxpeccy/cpu/Z80/z80nop.c:40-44 | the fields after z80_call are those of CallTo |
| Z80Core.Cpu.Ret | src/libxpeccy/cpu/Z80/z80nop.c:46-49 | the fields after z80_ret are those of RetFrom |
| Z80Core.Cpu.LdPairImm | src/libxpeccy/cpu/Z80/z80nop.c:56-59 | LD rr,nn on the fields (npr01, npr11, npr21, npr31) |
| Z80Core.Cpu.StoreA | src/libxpeccy/cpu/Z80/z80nop.c:62-66 | LD (BC),A and LD (DE),A on the fields |
| Z80Core.Cpu.LoadA | src/libxpeccy/cpu/Z80/z80nop.c:112-115 | LD A,(BC) and LD A,(DE) on the fields |
| Z80Core.Cpu.StepPair | src/libxpeccy/cpu/Z80/z80nop.c:69-71 | INC rr and DEC rr on the fields |
| Z80Core.Cpu.IncDec | src/libxpeccy/cpu/Z80/z80nop.c:74-81 | INC r and DEC r on the fields, (HL) spending one T-state before its write |
| Z80Core.Cpu.LdImm | src/libxpeccy/cpu/Z80/z80nop.c:84-86 | LD r,n and LD (HL),n on the fields |
| Z80Core.Cpu.Rlca | src/libxpeccy/cpu/Z80/z80nop.c:89-96 | RLCA on the fields |
| Z80Core.Cpu.Rrca | src/libxpeccy/cpu/Z80/z80nop.c:138-145 | RRCA on the fields |
| Z80Core.Cpu.Rla | src/libxpeccy/cpu/Z80/z80nop.c:192-200 | RLA on the fields |
| Z80Core.Cpu.Rra | src/libxpeccy/cpu/Z80/z80nop.c:242-250 | RRA on the fields |
| Z80Core.Cpu.ExAf | src/libxpeccy/cpu/Z80/z80nop.c:99-104 | EX AF,AF' on the fields |
| Z80Core.Cpu.AddHl | src/libxpeccy/cpu/Z80/z80nop.c:106-109 | ADD HL,rr on the fields, WZ set to HL + 1 before the addition |
| Z80Core.Cpu.Djnz | src/libxpeccy/cpu/Z80/z80nop.c:148-156 | DJNZ on the fields |
| Z80Core.Cpu.Jr | src/libxpeccy/cpu/Z80/z80nop.c:253-260 | JR and JR cc on the fields, the condition read from the flags before the step |
| Z80Core.Cpu.StoreHl | src/libxpeccy/cpu/Z80/z80nop.c:269-274 | LD (nn),HL on the fields |
| Z80Core.Cpu.LoadHl | src/libxpeccy/cpu/Z80/z80nop.c:319-324 | LD HL,(nn) on the fields |
| Z80Core.Cpu.StoreAbsA | src/libxpeccy/cpu/Z80/z80nop.c:372-377 | LD (nn),A on the fields |
| Z80Core.Cpu.LoadAbsA | src/libxpeccy/cpu/Z80/z80nop.c:431-435 | LD A,(nn) on the fields |
| Z80Core.Cpu.Daa | src/libxpeccy/cpu/Z80/z80nop.c:297-301 | DAA on the fields |
| Z80Core.Cpu.Cpl | src/libxpeccy/cpu/Z80/z80nop.c:347-353 | CPL on the fields |
| Z80Core.Cpu.Scf | src/libxpeccy/cpu/Z80/z80nop.c:407-413 | SCF on the fields |
| Z80Core.Cpu.Ccf | src/libxpeccy/cpu/Z80/z80nop.c:458-464 | CCF on the fields |
| Z80Core.Cpu.Ld | src/libxpeccy/cpu/Z80/z80nop.c:466-543 | LD r,r' and the (HL) forms on the fields |
| Z80Core.Cpu.Halt | src/libxpeccy/cpu/Z80/z80nop.c:527-533 | HALT on the fields |
| Z80Core.Cpu.Alu | src/libxpeccy/cpu/Z80/z80nop.c:544-615 | ADD, ADC, SUB, SBC, AND, XOR, OR and CP on A, by register, (HL) or immediate operand |
| Z80Core.Cpu.RetIf | src/libxpeccy/cpu/Z80/z80nop.c:618-621 | RET cc on the fields |
| Z80Core.Cpu.PopPair | src/libxpeccy/cpu/Z80/z80nop.c:624-626 | POP rr on the fields |
| Z80Core.Cpu.PushPair | src/libxpeccy/cpu/Z80/z80nop.c:654-656 | PUSH rr on the fields |
| Z80Core.Cpu.Jp | src/libxpeccy/cpu/Z80/z80nop.c:629-633 | JP cc,nn on the fields |
| Z80Core.Cpu.CallIf | src/libxpeccy/cpu/Z80/z80nop.c:643-651 | CALL cc,nn on the fields |
| Z80Core.Cpu.Out | src/libxpeccy/cpu/Z80/z80nop.c:739-744 | OUT (n),A on the fields, the write recorded with port (A << 8) or n |
| Z80Core.Cpu.In | src/libxpeccy/cpu/Z80/z80nop.c:793-797 | IN A,(n) on the fields, the byte supplied by the port function |
| Z80Core.Cpu.Exx | src/libxpeccy/cpu/Z80/z80nop.c:779-783 | EXX on the fields |
| Z80Core.Cpu.ExSpHl | src/libxpeccy/cpu/Z80/z80nop.c:844-849 | EX (SP),HL on the fields |
| Z80Core.Cpu.FromHl | src/libxpeccy/cpu/Z80/z80nop.c:884-886 | JP (HL) and LD SP,HL on the fields (with nprF9, lines 988-990) |
| Z80Core.Cpu.ExDeHl | src/libxpeccy/cpu/Z80/z80nop.c:896-898 | EX DE,HL on the fields |
| Z80Core.Cpu.Di | src/libxpeccy/cpu/Z80/z80nop.c:947-951 | DI on the fields |
| Z80Core.Cpu.Ei | src/libxpeccy/cpu/Z80/z80nop.c:1000-1005 | EI on the fields |
| Z80Core.Cpu.Execute | src/libxpeccy/cpu/Z80/z80nop.c:56-1032 | any decoded base-page instruction, run on the fields, leaves them as the model's step does |
| Z80Core.Cpu.Step | src/libxpeccy/cpu/Z80/z80nop.c:1036-1324 | an opcode looked up in npTab and its handler run on the fields leave them as the model's step of the decoded instruction |
| Mos6502.FlagRoundTrip | src/libxpeccy/cpu/MOS6502/6502.c:8-21 | packing the flags that unpacking a byte gives returns the byte with bit 5 forced to 1 |
| Mos6502.FlagUnpackPack | src/libxpeccy/cpu/MOS6502/6502.c:8-21 | unpacking a packed status register gives back every flag except F5, which comes back set |
| Mos6502.FlagBits | src/libxpeccy/cpu/MOS6502/6502.c:19-21 | in the packed byte B is bit 4, I is bit 2, and bit 5 is always set |
| Mos6502.PopAfterPush | src/libxpeccy/cpu/MOS6502/6502.c:38-46 | a pop right after a push returns the pushed byte and restores S within the stack page; memory differs only in the pushed byte |
| Mos6502.InterruptFrame | src/libxpeccy/cpu/MOS6502/6502.c:48-52 | the interrupt frame puts PCh, PCl and the packed flags at the three bytes below SP, in that order, and lowers S by 3; nothing else changes |
| Mos6502.NmiWins | src/libxpeccy/cpu/MOS6502/6502.c:54-59 | a pending NMI is serviced first: only its request is cleared, the frame is pushed with the flags unchanged, PC comes from FFFA/FFFB, and 7 cycles are reported |
| Mos6502.IrqService | src/libxpeccy/cpu/MOS6502/6502.c:60-73 | an IRQ alone clears its request; with I clear, B is cleared before the frame is pushed, I is set and PC comes from FFFE/FFFF; with I set nothing else changes; 7 cycles either way |
| Mos6502.LockedStep | src/libxpeccy/cpu/MOS6502/6502.c:76-78 | a locked CPU reports one cycle and changes nothing |
| Mos6502.StepDriver | src/libxpeccy/cpu/MOS6502/6502.c:76-95 | requests are masked by `inten` and IRQ also by I; a step services an interrupt exactly when a masked request remains and the NOINT latch is clear; otherwise it fetches the opcode at PC, advances PC and clears the latch |
| Mos6502.NoIntLatch | src/libxpeccy/cpu/MOS6502/6502.c:84-88 | the NOINT latch holds off even an NMI for exactly one step; the next step services the pending request |
| Mos6502.ResetState | src/libxpeccy/cpu/MOS6502/6502.c:23-36 | reset gives SP = 01FD, I and F5 set, A = X = Y = 0, both interrupt lines enabled and none pending, PC from FFFC/FFFD, and leaves memory and the other flags alone |
| Mos6502.BranchConditionByName | src/libxpeccy/cpu/MOS6502/6502.c:116-129 | for a branch opcode the condition the disassembler reports equals the named branch's own condition (BPL, BMI, BVC, BVS, BCC, BCS, BNE, BEQ) |
| Mos6502.SetRegEffect | src/libxpeccy/cpu/MOS6502/6502.c:185-193 | one bunch entry sets only the register it names, masked to 8 bits for A, X, Y, S and P; everything else is kept |
| Mos6502.SetRegsLast | src/libxpeccy/cpu/MOS6502/6502.c:182-195 | after the loading loop each register holds the value of the last entry naming it before the first REG_NONE among the 32 entries, or keeps its old value |
| Mos6502.SetRegsKeeps | src/libxpeccy/cpu/MOS6502/6502.c:182-195 | the loading loop leaves memory, the stack page, the latches and the interrupt lines alone |
| Mos6502.M6502.PushByte | src/libxpeccy/cpu/MOS6502/6502.c:38-41 | the fields after the push are those of the push function on the fields before |
| Mos6502.M6502.PopByte | src/libxpeccy/cpu/MOS6502/6502.c:43-46 | the popped byte and the new fields are those of the pop function |
| Mos6502.M6502.PushFrame | src/libxpeccy/cpu/MOS6502/6502.c:48-52 | the fields after the three pushes are those of the frame function |
| Mos6502.M6502.Int | src/libxpeccy/cpu/MOS6502/6502.c:54-74 | the cycles and the new fields are those of the interrupt function |
| Mos6502.M6502.Step | src/libxpeccy/cpu/MOS6502/6502.c:76-95 | the step outcome and the new fields are those of the step function |
| Mos6502.M6502.ResetCpu | src/libxpeccy/cpu/MOS6502/6502.c:23-36 | the fields after reset are those of the reset function |
| Mos6502.M6502.SetOne | src/libxpeccy/cpu/MOS6502/6502.c:185-193 | one switch arm changes the fields as the one-entry function says |
| Mos6502.M6502.SetRegs | src/libxpeccy/cpu/MOS6502/6502.c:182-195 | the loop over the bunch leaves the fields the recursive loading function gives |
| Spectrum.Put | src/libxpeccy/spectrum.c:691 | a store through a cell leaves that cell holding the value and keeps the break fields and the slot's presence |
| Spectrum.CheckBp | src/libxpeccy/spectrum.c:24-56 | a reported hit names an existing cell that has a bit of the mask, with a memory or CPU-address type (never −1 or IRQ) |
| Spectrum.PutFrame | src/libxpeccy/spectrum.c:691 | a store through one cell leaves every other cell unchanged |
| Spectrum.PutKeepsSized | src/libxpeccy/spectrum.c:691 | a store keeps the sizes of all breakpoint maps |
| Spectrum.CheckBpMissIff | src/libxpeccy/spectrum.c:24-56 | the check misses exactly when the CPU-address byte (consulted only on a bus narrower than 64K) and the mapped memory byte (if there is one) both lack every bit of the mask |
| Spectrum.CheckBpPrecedence | src/libxpeccy/spectrum.c:28-53 | on a narrow bus, a hit in the CPU-address map wins and reports the masked bus address; otherwise a hit has the type of the RAM, ROM or slot memory and reports the masked absolute address |
| Spectrum.WideBusIgnoresAdrMap | src/libxpeccy/spectrum.c:28 | with a bus mask of 64K or more, replacing the CPU-address map by any other 64K map does not change the result of the check |
| Spectrum.BrkPtrNeverNull | src/libxpeccy/spectrum.c:656-686 | getBrkPtr always gives an existing cell; it gives the spare byte exactly for an unmapped address or a slot without a map, and then the spare byte is cleared and nothing else changes; otherwise nothing changes |
| Spectrum.SetBrkNibble | src/libxpeccy/spectrum.c:688-692 | setBrk on a mapped address sets the low nibble of the cell to the value's low nibble, keeps its high nibble, and leaves every other cell and the break fields as they were |
| Spectrum.GetAfterSet | src/libxpeccy/spectrum.c:688-701 | reading back a breakpoint just set gives the cell's own high nibble, and a low nibble that is the one written, ORed with the CPU-address map's low nibble on a narrow bus |
| Spectrum.UnmappedBreakpointIsLost | src/libxpeccy/spectrum.c:669-671 | a breakpoint set on an unmapped address reads back as 0, apart from the CPU-address map's low nibble on a narrow bus (with lines 694-700) |
| Spectrum.PrologueSkippedWhileDebugging | src/libxpeccy/spectrum.c:555 | while debugging, the breakpoint prologue never stops the step and changes nothing |
| Spectrum.FetchBreakpointStops | src/libxpeccy/spectrum.c:556-566 | a fetch or one-shot hit at CS base + PC stops the step at once and records the hit |
| Spectrum.OneShotBreakpoint | src/libxpeccy/spectrum.c:557-564 | a recorded hit sets the break flag and address; with the one-shot bit set it clears just that bit of the cell and reports type −1; otherwise it reports the hit's type and changes no cell |
| Spectrum.InterruptBreak | src/libxpeccy/spectrum.c:567-571 | with no fetch hit, the prologue stops exactly when an interrupt is pending and IRQ breaks are asked for, then recording type IRQ; otherwise nothing changes |
| Spectrum.Breakpoints.Poke | src/libxpeccy/spectrum.c:691 | the fields after the store are those of the store function |
| Spectrum.Breakpoints.GetBrkPtr | src/libxpeccy/spectrum.c:658-686 | returns the cell, and leaves the fields, that the cell-lookup functions give |
| Spectrum.Breakpoints.SetBrk | src/libxpeccy/spectrum.c:688-692 | the fields after the call are those of the set function |
| Spectrum.Breakpoints.GetBrk | src/libxpeccy/spectrum.c:694-701 | returns the value, and leaves the fields, that the get function gives |
| Spectrum.Breakpoints.RecordHit | src/libxpeccy/spectrum.c:557-564 | the fields after the hit are those of the hit function |
| Spectrum.Breakpoints.ClearOneShot | src/libxpeccy/spectrum.c:561-564 | stores the cleared byte, sets the break flag and address, and sets the type to −1 |
| Spectrum.Breakpoints.CheckFetch | src/libxpeccy/spectrum.c:555-572 | the stop decision and the new fields are those of the prologue function |
| Spectrum.ResetDecode | src/libxpeccy/spectrum.c:466-475 | the default mode stands for `resbank`; 7FFD is 10 exactly for DOS and 48 and 0 otherwise; the DOS ROM is on exactly for DOS and SHADOW; `rom` follows bit 4 of 7FFD; the other latches clear |
| Spectrum.ResetIdempotent | src/libxpeccy/spectrum.c:466-475 | resetting twice in one mode is resetting once, and the default mode resets as `resbank` does |
| Spectrum.Machine.CompReset | src/libxpeccy/spectrum.c:466-475 | the latches after the call are those of the reset function (with lines 493-495) |
| Spectrum.LevelsIncrease | src/libxpeccy/spectrum.c:182 | the eight ULA levels rise strictly, from 00 to FF |
| Spectrum.BlueIndexValues | src/libxpeccy/spectrum.c:189-190 | the blue level index is twice the two low bits with bit 0 copied once more, so it is 0, 3, 4 or 7 |
| Spectrum.UlaColorInjective | src/libxpeccy/spectrum.c:188-196 | distinct palette bytes give distinct colours |
| Spectrum.SetUlaPalette | src/libxpeccy/spectrum.c:184-198 | exactly 64 colours, entry i being the conversion of palette byte i |
| Spectrum.HighWriteSetsMode | src/libxpeccy/spectrum.c:638-640 | a write at an address above 6F only sets the read mode and is not passed to the chip |
| Spectrum.ModeThenRead | src/libxpeccy/spectrum.c:616-621 | after mode 0 or 1 is selected, a read at 70 or above returns byte `adr & 15` of the boot or the BIOS version string (with lines 638-640) |
| Spectrum.KeyboardRegister | src/libxpeccy/spectrum.c:632-636 | a write to register 0C is not passed to the chip; it clears the keyboard's output buffer when bit 0 is set and otherwise changes nothing |
| Spectrum.LowAddressesGoToChip | src/libxpeccy/spectrum.c:624-626 | below 70, apart from 0C, both directions go to the chip and nothing here changes (with lines 641-643) |
| Spectrum.Cmos.Write | src/libxpeccy/spectrum.c:630-646 | the new fields, and whether the value goes to the chip, are those of the write function |
| GeneralSound.Initial | src/gs.cpp:123-147 | the power-on card is enabled in 12/34 stereo, has `pstate` 7E, all volumes and channels 0, ROM page 0 in bank 0 and RAM pages 0, 0, 1 in banks 1-3, and satisfies the 6-bit volume invariant |
| GeneralSound.MemReadKeepsInv | src/gs.cpp:26-36 | a memory read by the card's CPU keeps the volume invariant and changes neither the state register nor any volume |
| GeneralSound.MemReadLatches | src/gs.cpp:29-34 | a read whose address masked by E300 is 6000, 6100, 6200 or 6300 latches the byte into channel 1, 2, 3 or 4 respectively, and every other channel keeps its value |
| GeneralSound.InternalReadKeepsInv | src/gs.cpp:44-63 | every internal port read keeps the 6-bit volume invariant |
| GeneralSound.InternalWriteKeepsInv | src/gs.cpp:65-91 | every internal port write keeps the 6-bit volume invariant |
| GeneralSound.InternalPortsDecodeLowNibble | src/gs.cpp:47 | internal reads and writes give the same result for a port and for its low nibble (with line 67) |
| GeneralSound.VolumeLatch | src/gs.cpp:84-87 | ports 6-9 store the written value masked to six bits into volume 1-4 and leave the neighbouring volume alone |
| GeneralSound.BankSelect | src/gs.cpp:69-78 | port 0 remembers the value, keeps banks 0 and 1, and maps ROM pages 0/1 into banks 2/3 when the low three bits are 0, else RAM pages 2v-2 and 2v-1 |
| GeneralSound.ExternalGuard | src/gs.cpp:208-210 | on a disabled card or a port with bit 2 or bit 6 set, both external accesses return GS_ERR and change nothing, not even the value behind the out-argument (with lines 221-223) |
| GeneralSound.ExternalStatus | src/gs.cpp:208-233 | an external access returns GS_OK exactly when the card is enabled and the port has neither bit 2 nor bit 6 set |
| GeneralSound.DataToCard | src/gs.cpp:51 | after an external data write, the data flag is set; the card's read of port 2 then returns that byte and clears the data flag, leaving the other state bits alone (with lines 228-231) |
| GeneralSound.DataToHost | src/gs.cpp:81 | after the card writes port 3, the data flag is set; an external data read then returns that byte and clears the data flag (with lines 214-217) |
| GeneralSound.CommandToCard | src/gs.cpp:50 | after an external command write, the command flag is set and internal port 1 reads the byte back without changing anything; a read or write of port 5 then clears the command flag and nothing else (with lines 54, 83, 225-227) |
| GeneralSound.StatusRead | src/gs.cpp:212-213 | on a caught port with bit 3 set, the external read returns the state register and changes nothing |
| GeneralSound.Port11WriteClearsCommand | src/gs.cpp:89 | under the volume invariant, an internal write to port 11 always clears the command flag and changes nothing else, because bit 6 of a six-bit volume is never set |
| GeneralSound.VolumeBounds | src/gs.cpp:179-199 | under the invariant, each output of the mixer is the plain weighted sum shifted right (by 9 for mono, by 8 per pair for 12/34) and lies in 0..125; a disabled card or another stereo mode gives 0, 0 |
| GeneralSound.MixNeverTruncates | src/gs.cpp:187-195 | with each channel-times-volume product within 255*63, truncating the shifted sums to a byte never changes them |
| GeneralSound.GSound.constructor | src/gs.cpp:123-147 | the new card's fields are the power-on state |
| GeneralSound.GSound.MemRd | src/gs.cpp:26-36 | returns the byte read and updates the fields as the memory-read function says |
| GeneralSound.GSound.IoRd | src/gs.cpp:44-63 | returns the value of the decoded port (FF for ports without one) and changes only the state register, as the read functions say |
| GeneralSound.GSound.IoWr | src/gs.cpp:65-91 | the fields after the write are those of the internal-write function |
| GeneralSound.GSound.SelectBanks | src/gs.cpp:69-78 | stores the value in `rp0`, maps the bank pair for its low three bits, and changes nothing else |
| GeneralSound.GSound.LatchVolume | src/gs.cpp:84-87 | sets exactly the volume the port names to the masked value, and changes nothing else |
| GeneralSound.GSound.WriteHandshake | src/gs.cpp:79-83 | sets the state register as the write rule for the port says, latches the byte on port 3, and changes nothing else (with lines 88-89) |
| GeneralSound.GSound.GetVolume | src/gs.cpp:179-199 | returns the outputs of the mixing function |
| GeneralSound.GSound.In | src/gs.cpp:208-219 | returns the status and the value, and leaves the fields, as the external-read function says |
| GeneralSound.GSound.Out | src/gs.cpp:221-233 | returns the status and leaves the fields as the external-write function says |

## Left out

- Memory and port callbacks (`cpu_mrd`, `cpu_mwr`, `z80_mrd`, `mrd`/`mwr` of the 6502, `memrd`/`memwr`, `iord`/`iowr` of the machine) are replaced by byte maps the model owns. Ports read through a parameter; port writes are appended to a list.
- A byte map read at an address nothing was written to yields FF in the 80286 and Z80 models. Those models do not require the whole address space to be present.
- The 6502 model requires `Full(mem)`: the memory map holds a byte for every 16-bit address. This is how the `mrd` callback, which answers every address, becomes a total map.
- The ALU helpers of the 80286 (`i286_add8` .. `i286_sub16`, the rotates) and of the Z80 (`z80_add8`, `z80_sub8`, ..., `z80_add16`) live outside the modelled files. They are parameters, and no flag behaviour is claimed for them.
- Z80.Pack, Z80.Unpack: `z80_get_flag`/`z80_set_flag` (called at z80nop.c:101-102, 299, 935 and 966) are declared outside the modelled files. The model defines them with the standard Z80 layout S Z F5 H F3 P/V N C from bit 7 down. The daaTab bytes agree with that layout, but the helpers' own bodies are not modelled, and Z80.UnpackPack, Z80.PackUnpack and Z80.DaaReadsTable rest on it.
- Z80.AddHlOp: `z80_add16` is outside the modelled files. The WZ update (HL + 1, before the addition) is taken from the comment on `npr09` at z80nop.c:106 rather than from the helper's body; HL and F come from the adder parameter.
- `x86_get_flag`/`x86_set_flag`, `THROW`/`THROW_EC` and `i286_interrupt` are declared outside the modelled files. A throw or an interrupt ends the handler with its vector and error code; what happens after is not modelled.
- The x87 escape (`x87_exec`) is not modelled past its #NM/#MF checks: the step ends with the hand-over.
- The body of `i286_switch_task` past its entry checks is not modelled; the step ends with `TaskSwitch`. This covers the IRET continuation through a nested task as well.
- The paths whose outcome depends on scratch fields an earlier instruction left behind end with `StaleScratch`. These are LES/LDS and the far CALL/JMP of group FF with a register operand.
- The `ovr`/`rep` reset and the instruction loop of `i286_exec` are not modelled; one `Step` runs one table entry on the current prefixes.
- The 0F opcode page: its prefix entry selecting the page is modelled, its handlers are not. They are in the 0F table file, which is outside this model.
- I286Ops.Salc: `i286_opD6` is modelled, but the opcode table never reaches it, because entry D6 names `i8086_nodef`.
- I286Ops.Wait: keeps the TS-and-MP branch of `i286_op9B` as written. The MP test before it makes that branch unreachable, so TS alone raises nothing.
- DivWord: reads DX:AX as an unsigned 32-bit dividend. The C type of `tmpi` is declared outside the modelled files, so its sign on overflow is not modelled.
- IdivWord: models IDIV ew literally. Its range test reads `tmpi` before it is set, so only a zero divisor raises #DE (I286OpsFacts.WordIdivRangeTestInert). No claim is made about signed division overflow.
- I286Alu.Das: modelled literally (subtract 9 for the low digit and 60 for the high one, then C from bit 7); no decimal-correctness claim is made.
- I286OpsFacts.LeaveAfterFlatEnter: LEAVE undoing ENTER is proved for nesting level 0 only.
- I286Core.Cpu.CopyParams: the call-gate parameter copy loop is proved equal to the byte-copy function that `Callf` applies. `Step` runs `Callf` as a function rather than calling the loop method.
- Pdp11Alu.AddWords, Pdp11Alu.SubWords: V is modelled as written and no overflow claim is made. `pdp_op_add` replaces `twsrc` by the sign-difference bit of the operands (line 1358) and then tests that bit against the sum's sign (1359-1360). So ADD sets V when the operands share a sign and the sum is negative: FFFF + FFFF sets V, 8000 + 8000 leaves it clear. SUB (1388-1391) sets V when the signs differ and the difference is not negative, so 0001 - FFFF sets V (Pdp11Alu.OverflowAsWritten).
- `printf` in `pdp_undef`, the `sprintf` octal formatting of `pdp11_mnem` and `put_addressation` are text output. Only the table lookup and the operand values its templates show are modelled.
- `pdp11_get_regs`/`pdp11_set_regs`, `m6502_get_regs` and `m6502_asm` are debugger plumbing; only `m6502_set_regs` is modelled.
- `mosTab`, the 6502 instruction table, is outside the modelled file. A 6502 step ends at the opcode fetch and reports the opcode.
- `gsFlush` drives the card's foreign Z80 (z80ex). It is taken as the identity, run before every port access.
- GeneralSound.Initial: `gsCreate` allocates the card with `malloc` and never sets `rp0`, `pb3_gs`, `pb3_zx` or `pbb_zx`, so their power-on values are undefined. The model starts them at 0.
- `gsSync` uses floating point, and `gsSetRom` copies a ROM image; neither is modelled.
- `gsmemwr`, `gsintrq`, `gsGetFlag`/`gsSetFlag`, `gsGetParam`/`gsSetParam`, `gsDestroy` and `gsReset` are callbacks and accessors for the foreign CPU and the options dialog.
- GeneralSound: the internal read of port 11 tests bit 5 of `vol1`, the write tests bit 6. Both are modelled as written, so the write always clears `pstate` bit 0.
- Spectrum.Machine.CompReset: ends at the latch defaults. The calls that follow them in `compReset` are not modelled: the hardware's own reset callback (`hw->reset`, which may overwrite those latches), `mapMem` and `cpu_reset`.
- `compExec` past its breakpoint prologue (video sync, contention, timing statics) is not modelled, because it is timing code.
- RZX playback, `compCreate`/`compDestroy`, `comp_update_timings`, `compSetBaseFrq` and `compSetTurbo` are not modelled: they are playback, allocation or floating-point code.
- The memory module (`mem_get_xadr`), the CMOS chip (`cmos_rd`/`cmos_wr`) and the PC keyboard (`xt_read`) are outside `spectrum.c`. What they answer is a parameter.
- The debugger and tape-catalogue widgets and `src/libxpeccy/hardware/common.c` are not part of this model: they are user interface and one-line delegations.

## Findings

| source | as written | input that shows it | evidently intended | confidence | as-written member | corrected member |
|---|---|---|---|---|---|---|
| src/libxpeccy/cpu/i80286/i80286_nop.c:157-166 | `i286_pop` faults when SP + 2 is above the stack limit | limit FF, SP FE: the word at FE..FF lies inside the segment | fault only when the word's last byte, SP + 1, is beyond the limit | not executed | I286Facts.PopLimitAsWritten | I286Facts.PopAfterPush |
| src/libxpeccy/cpu/i80286/i80286_nop.c:978-995 | DAA tests AL > 9F after adding 6 to the low digit | BCD 99 + 61 (AL = FA): DAA leaves 00 with C clear | 60 with C set, the decimal sum 160 | not executed | I286AluFacts.DaaAsWrittenMisses | I286AluFacts.DaaAddsDecimal |
| src/libxpeccy/cpu/i80286/i80286_nop.c:2713-2720 | IMUL ew compares DX with 00FF when AX is negative | FFFF times 1: DX = FFFF, so C and O are set | C and O clear, since -1 fits in AX (compare with FFFF) | not executed | I286AluFacts.ImulWordAsWrittenCarry | I286AluFacts.ImulWordCarry |
| src/libxpeccy/cpu/i80286/i80286_nop.c:462 | the call-gate privilege test reads `(dpl<cpl)\|\|(dpl<cpl)` | gate DPL 1, CPL 0, selector RPL 2: the call goes through | refuse the call when DPL is below RPL as well | not executed | I286ProtFacts.CallGatePrivilegeAsWrittenMisses | I286ProtFacts.CallGateRefusesRpl |
| src/libxpeccy/cpu/i80286/i80286_nop.c:467-468 | the gate's offset is taken from its selector bytes and the selector from its offset bytes | gate bytes 34 12 08 00 00 84: the target is 1234:0008 | the target 0008:1234 | not executed | I286ProtFacts.GateEntryAsWrittenMisreads | I286ProtFacts.GateEntryBytes |
| src/libxpeccy/cpu/i80286/i80286_nop.c:510-511 | the interrupt and trap gate path takes the gate's offset from its selector bytes and the selector from its offset bytes, as the call gate does | gate bytes 34 12 08 00 00 86: the target is 1234:0008 | the target 0008:1234 | not executed | I286ProtFacts.TrapGateAsWrittenMisreads | I286ProtFacts.TrapGateTarget |
| src/libxpeccy/cpu/i80286/i80286_nop.c:1795-1836 | a call through a gate to an inner level loads the new CS:IP before it pushes the return address | any such call: the target's own CS:IP is pushed | push the caller's CS:IP | not executed | I286ProtFacts.CallfReturnAddress | I286ProtFacts.CallfReturnAddress |
| src/libxpeccy/cpu/i80286/i80286_nop.c:2340 | IRET compares `(sel >> 3) & 0x60` with CPL as its same-level test | selector 001B at CPL 3: taken as a return to an outer level | compare the selector's RPL, `sel & 3`, with CPL | not executed | I286ProtFacts.SameLevelAsWrittenMisses | I286Prot.SameLevel |
| src/libxpeccy/cpu/i80286/i80286_nop.c:2337-2343 | the protected-mode IRET reads its frame at SS:0 and SS:2 | a zero word at SS:2 raises #GP(0), whatever frame lies at SS:SP | pop the frame from SS:SP | not executed | I286ProtFacts.IretAsWrittenNullFrame | I286ProtFacts.PopFrameTakesFrame |
| src/libxpeccy/cpu/i80286/i80286_nop.c:1722-1730 | 8F with a register operand stores to the reg-field register | 8F C1: AX is overwritten and CX is unchanged | store to the r/m register, CX | not executed | I286OpsFacts.PopRegisterFormAsWritten | I286OpsFacts.PopStoreWrites |
| src/libxpeccy/cpu/i80286/i80286_nop.c:2175-2185 | `i286_rotsh16` charges the scratch byte `tmpb` in cycles | C1 with count 21: one rotate, 33 cycles; D1 charges what an earlier instruction left | charge the masked count, as `i286_rotsh8` does | not executed | I286OpsFacts.WordShiftCyclesAsWritten | I286OpsFacts.ShiftCyclesAgree |
| src/libxpeccy/cpu/1801vm1/1801vm1.c:1068 | MUL sets C only when the product is below `-(2<<15)` or at least `(2<<15)-1`, bounds of 17 bits | 200 times 200 = 40000: C stays clear although the product needs the high word | the same test with `1<<15`, the bounds of a signed word, which sets C | not executed | Pdp11Eis.MulCarryMissed | Pdp11Eis.MulCarrySet |
| src/libxpeccy/cpu/1801vm1/1801vm1.c:1089 | DIV sets V only for a quotient outside `-(2<<15)` .. `(2<<15)-1`, bounds of 17 bits | 40000 divided by 1: V stays clear although the quotient register cannot hold 40000 | the bounds of a signed word, `1<<15`, which set V | not executed | Pdp11Eis.DivOverflowMissed | Pdp11Eis.DivOverflowClear |
