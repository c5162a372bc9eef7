# MOS 6502 opcode table and early interpreter

This project models two small parts of a NES (MOS 6502) CPU emulator written in Rust.

**The opcode table** (`src/opcode.rs`, module `Opcodes` in `opcode.dfy`). `CPU_OP_CODES` is an immutable list of 26 descriptors. Each descriptor holds an opcode byte, a mnemonic, a byte length, a base cycle count and an addressing mode. The list covers ADC, LDA, STA, TAX, INX and BRK. `OpCode::from_u8` searches this list linearly and returns the first entry whose opcode byte matches; on a miss it panics.

- The table is the constant `CpuOpCodes`, in source order. The `OpCode` datatype constructor stands for `OpCode::new`, which is a plain record constructor.
- The search is `Lookup`, a recursive first-match search over any table. `FromU8` is `Lookup` on `CpuOpCodes`, and a panic is `None`.
- `Slot` and `DirectLookup` are an independent reference: a keyed index from opcode byte to table position, like a 256-entry array. The lemmas prove that the linear search gives the same answer for every byte.
- `AddressingMode` is declared locally, because `cpu.rs` does not define it. It has exactly the nine variants the table uses.

**The interpreter** (`src/cpu.rs`, module `Cpu` in `cpu.dfy`).

- Its decoder `OpCode::from_u8` knows only LDA (0xA9) and BRK (0x00). It is modelled as `Cpu.FromU8`.
- `CPU` is a class with the source's three fields: `a`, `status` and `programCounter`.
- `CPU.Interpret` is the fetch/decode/execute `loop`. It is a `while` loop over the same fields. Its postcondition ties the outcome and the final fields to the specification function `Exec`.
- `Exec` iterates `Step`, which is one pass of the loop body.
- The LDA flag update uses the source's own masks. Bit 1 (zero) is set with `| 0x02` and cleared with `& 0xFD`. Bit 7 (negative) is set with `| 0x80` and cleared with `& 0x7F`.

Panics become outcomes instead of preconditions. `Interpret` returns `Halted` on BRK, or `Panicked(f)` where `f` is one of:

- `UnknownOpcode(b)`: the decoder panics on byte `b`.
- `IndexOutOfBounds(i)`: `program[i]` is past the end of the vector.
- `CounterOverflow`: `program_counter += 1` runs at 0xFFFF. Overflow panics in a debug build.

The fields are left as they were when the panic happened.

**Behaviour kept exactly as written, and pinned by lemmas:**

- **LDA operand offset.** After the fetch increment, LDA reads `program[program_counter + 1]`. That is two bytes past the opcode, not the byte right after it (`src/cpu.rs:40`). So the byte LDA loads is also the byte the next pass fetches as an opcode.
  - `HaltAfterLoadLeavesZero`: every run that halts after at least one LDA ends with A == 0, the zero flag set and the negative flag clear.
  - `LdaSkipsOperandByte`: `A9 05 00 00` loads 0x00, not 0x05.
  - `LdaTaxInxPanics`: `A9 C0 AA E8 00` loads 0xAA and then panics on it as an opcode.
- **Opcode 0x7d** is tabled as ADC AbsoluteY (`src/opcode.rs:21`). So no ADC entry is AbsoluteX.
- **Opcode 0xb1** is tabled as LDA IndirectX (`src/opcode.rs:33`). So no LDA entry is IndirectY.

Other points where the model follows the code as it stands:

- A 256-entry array indexed by the opcode byte would give an O(1) lookup; the code scans the table linearly. The model keeps the scan and proves it equal to a keyed lookup (`FromU8IsDirectLookup`).
- On a 6502, LDA immediate reads the byte right after the opcode; this code reads one byte further on (`src/cpu.rs:40`, see above).
- The code has no ZeroPageY mode, and it names the operand-less mode `NoneAddressing`.

Byte representation:

- The table's `u8` fields are the integer subset type `Opcodes.U8`. They are only compared, never masked.
- The interpreter's bytes (`a`, `status`, the program) are `bv8`, because the source applies bit masks to them.
- `program_counter` is the subset type `Cpu.U16`, which runs from 0 to 0xFFFF.

## Model

| member | source | states |
|---|---|---|
| `Opcodes.CpuOpCodes` | src/opcode.rs:15-48 | a constant with no contract of its own: the 26 descriptors in source order; `HexesDistinct`, `BytesAgreeWithMode` and the quirk lemmas state its properties |
| `Opcodes.Lookup` | src/opcode.rs:68-75 | a hit has the searched opcode byte and is in the table, and no earlier entry has that byte (first match); a miss happens exactly when no entry has the byte |
| `Opcodes.FromU8` | src/opcode.rs:68-76 | `from_u8(v)` returns a table entry whose `hex` is `v`, and fails (the panic) exactly when no table entry has `hex == v` |
| `Opcodes.ModeBytes` | src/opcode.rs:17-47 | the length a mode implies is 1 to 3: 1 exactly for NoneAddressing, 3 exactly for Absolute, AbsoluteX and AbsoluteY, otherwise 2 |
| `Opcodes.Slot` | src/opcode.rs:17-47 | the keyed index only names positions that are inside the table and hold the given opcode byte, and when it names none, no table entry has that byte |
| `Opcodes.SlotIndexesTable` | src/opcode.rs:17-47 | every entry's opcode byte indexes back to that entry's own position |
| `Opcodes.HexesDistinct` | src/opcode.rs:17-47 | the 26 opcode bytes in the table are pairwise distinct |
| `Opcodes.FromU8IsDirectLookup` | src/opcode.rs:69-73 | for every byte, the linear first-match search gives the same result as the direct keyed lookup |
| `Opcodes.FromU8IsKeyedLookup` | src/opcode.rs:68-75 | `from_u8(v)` returns `op` if and only if `op` is a table entry with `hex == v` |
| `Opcodes.BytesAgreeWithMode` | src/opcode.rs:17-47 | every entry's `bytes` is 1, 2 or 3 and equals the length its addressing mode implies |
| `Opcodes.FromU8ZeroPageLda` | src/opcode.rs:84-95 | `from_u8(0xa5)` is exactly {0xa5, "LDA", 2 bytes, 3 cycles, ZeroPage} |
| `Opcodes.FromU8ImpliedInstructions` | src/opcode.rs:43-47 | 0x00 is BRK (1 byte, 7 cycles); 0xaa is TAX and 0xe8 is INX (1 byte, 2 cycles); all three use NoneAddressing |
| `Opcodes.TableQuirks` | src/opcode.rs:21-33 | 0x7d is ADC with AbsoluteY and 0xb1 is LDA with IndirectX, as tabled |
| `Opcodes.QuirkGaps` | src/opcode.rs:17-33 | as a consequence, no ADC entry uses AbsoluteX and no LDA entry uses IndirectY |
| `Opcodes.NoImmediateStore` | src/opcode.rs:34-41 | no STA entry uses Immediate addressing |
| `Opcodes.FromU8Miss` | src/opcode.rs:68-75 | a byte with no entry (0xea) takes the failure path |
| `Cpu.FromU8` | src/cpu.rs:7-13 | the decoder gives LDA exactly for 0xA9 and BRK exactly for 0x00, and fails for every other byte |
| `Cpu.LdaStatus` | src/cpu.rs:44-57 | after LDA, status bit 1 is set iff the loaded value is 0, bit 7 is set iff bit 7 of the value is set, and bits 0 and 2 to 6 are unchanged |
| `Cpu.Step` | src/cpu.rs:34-62 | a pass goes on exactly when an LDA at `pc` has its operand at `pc + 2` in range and `pc + 2` still fits in a u16; it then loads `program[pc + 2]`, updates the flags and advances the counter by exactly 2. It halts exactly on a BRK fetched below 0xFFFF, with the counter one past the BRK. Panics leave A and status unchanged |
| `Cpu.Exec` | src/cpu.rs:31-64 | no contract of its own: it repeats `Step` until a pass stops; the `Exec*` lemmas, `HaltAfterLoadLeavesZero` and `NoOverflowInBound` give its properties |
| `Cpu.ExecCounterNeverDecreases` | src/cpu.rs:34-63 | over a whole run the program counter only moves forward |
| `Cpu.ExecHaltsOnlyOnBrk` | src/cpu.rs:34-61 | a run returns normally only through BRK, with the counter one past a 0x00 byte that lies inside the program |
| `Cpu.ExecStopsOnUnknownOpcode` | src/cpu.rs:35 | a decode panic happens with the counter on the offending byte, which is neither 0xA9 nor 0x00 |
| `Cpu.ExecKeepsOtherFlags` | src/cpu.rs:44-57 | a whole run changes no status bit other than bits 1 and 7 |
| `Cpu.ExecFlagsTrackAfterLoad` | src/cpu.rs:39-57 | once an LDA has executed, the zero and negative flags agree with A at the end of the run |
| `Cpu.HaltAfterLoadLeavesZero` | src/cpu.rs:35-42 | because LDA loads the byte the next fetch decodes, a run that halts after at least one LDA ends with A == 0, zero set and negative clear |
| `Cpu.NoOverflowInBound` | src/cpu.rs:36-41 | for a program of at most 0x10000 bytes and an even starting counter (`interpret` starts at 0), a run never ends in the `u16` overflow of either `program_counter += 1` |
| `Cpu.BrkOnly` | src/cpu.rs:59-60 | the program `[0x00]` halts with the counter at 1 and A and status untouched |
| `Cpu.LdaSkipsOperandByte` | src/cpu.rs:40 | `A9 05 00 00` loads 0x00 (not 0x05), sets only the zero flag and halts with the counter at 3 |
| `Cpu.LdaTaxInxPanics` | src/cpu.rs:35-42 | `A9 C0 AA E8 00` loads 0xAA, sets only the negative flag and panics on 0xAA with the counter at 2 |
| `Cpu.EmptyProgramPanics` | src/cpu.rs:35 | an empty program panics on the first fetch at index 0 |
| `Cpu.CPU.constructor` | src/cpu.rs:23-29 | `CPU::new()` has `a`, `status` and `program_counter` all 0 |
| `Cpu.CPU.UpdateLdaFlags` | src/cpu.rs:44-57 | the four masked updates leave `status` equal to `LdaStatus` of the old status and A |
| `Cpu.CPU.Interpret` | src/cpu.rs:31-64 | resets the counter to 0, then ends with the outcome and fields that `Exec` gives from the old A and status and counter 0; the loop invariant keeps the counter at most the program's length, and the distance from the counter to the end of the program shrinks on every pass |
| `Cpu.NewCpuFlags` | src/cpu.rs:23-29 | on a fresh CPU the flags do not track A: A is 0 but the zero flag is clear |
| `Cpu.InterpretLdaBrk` | src/cpu.rs:31-64 | a fresh CPU interpreting `A9 05 00 00` halts with A == 0, status == 0x02 and the counter at 3 |

## Left out

- The `lazy_static!` initialisation and the `&'static` lifetimes (`src/opcode.rs:1`, `14-15`). The table is a plain constant sequence.
- Panic message strings. A panic is only an `Option`/`Outcome` case.
- After a panic the source unwinds and does not return. `Interpret` instead returns `Panicked(...)` and leaves the fields as they were at the point of the panic.
- Release-build wrap-around of `program_counter += 1`. The model follows the debug build: overflow is the `CounterOverflow` panic. `NoOverflowInBound` proves that a run of `interpret` on a program of at most 64 KiB never reaches that path, so the two builds only differ on longer programs.
- Extra cycles for page crossing. They appear only as comments in the table (`src/opcode.rs:21-33`) and are not implemented.
- Memory, an addressing-mode resolver, handlers for ADC, AND, STA, TAX and INX, the reset vector and a program loader. None of these exist in the modelled source: `cpu.rs` interprets only LDA and BRK from a byte vector, and the opcode table is not used by it.
- `Cpu.CPU.UpdateLdaFlags`: in the source these four masked updates are written inline in `interpret`. The model moves the same statements into a helper method that `Interpret` calls, without changing its behaviour.
