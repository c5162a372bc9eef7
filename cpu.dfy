/**
 * The early interpreter of src/cpu.rs: a two-instruction decoder (LDA, BRK)
 * and a CPU with an accumulator, a status byte and a 16-bit program counter.
 */
module Cpu {
  import opened Wrappers

  /** The value range of the source's `u16` program counter. */
  type U16 = x: int | 0 <= x <= 0xFFFF

  /** The two instructions this decoder knows. */
  datatype OpCode = LDA | BRK

  /** `OpCode::from_u8`: `None` stands for the source's panic on any other byte. */
  function FromU8(val: bv8): (r: Option<OpCode>)
    ensures r == Some(LDA) <==> val == 0xA9
    ensures r == Some(BRK) <==> val == 0x00
    ensures r == None <==> val != 0xA9 && val != 0x00
  {
    if val == 0xA9 then Some(LDA)
    else if val == 0x00 then Some(BRK)
    else None
  }

  /** Status bit 1 (zero) and bit 7 (negative), the two bits LDA writes. */
  const ZeroFlag: bv8 := 0x02
  const NegativeFlag: bv8 := 0x80
  /** Every status bit LDA leaves alone: bits 0 and 2 to 6. */
  const OtherFlags: bv8 := 0x7D

  /** Why `interpret` stopped: the panics are the ones its indexing, decoding and `u16` arithmetic can raise. */
  datatype Fault =
    | UnknownOpcode(value: bv8)   // `OpCode::from_u8` on a byte it does not know
    | IndexOutOfBounds(index: int) // `program[i]` with `i >= program.len()`
    | CounterOverflow             // `program_counter += 1` at 0xFFFF (a debug-build panic)

  datatype Outcome = Halted | Panicked(fault: Fault)

  /** The CPU's three fields as a value. */
  datatype Registers = Registers(a: bv8, status: bv8, pc: U16)

  /** The status byte after LDA loads `value`: zero and negative flags track `value`, all else stays. */
  function LdaStatus(status: bv8, value: bv8): (r: bv8)
    ensures (r & ZeroFlag != 0) <==> value == 0
    ensures (r & NegativeFlag != 0) <==> (value & NegativeFlag != 0)
    ensures r & OtherFlags == status & OtherFlags
  {
    var withZero := if value == 0 then status | 0x02 else status & 0xFD;
    if value & 0x80 != 0 then withZero | 0x80 else withZero & 0x7F
  }

  /** The zero and negative flags agree with the accumulator. */
  predicate FlagsTrack(s: Registers) {
    (s.status & ZeroFlag != 0 <==> s.a == 0) &&
    (s.status & NegativeFlag != 0 <==> s.a & NegativeFlag != 0)
  }

  /** What one pass of the loop body does: go on with new registers, or stop. */
  datatype StepResult = Continue(next: Registers) | Stop(outcome: Outcome, last: Registers)

  /**
   * One pass of the `interpret` loop from `s`.  LDA increments the counter
   * past the opcode and then reads its operand one byte further on, at
   * `s.pc + 2`.
   */
  function Step(program: seq<bv8>, s: Registers): (r: StepResult)
    ensures r.Continue? <==>
              s.pc + 2 < |program| && program[s.pc] == 0xA9 && s.pc + 1 < 0xFFFF
    ensures r.Continue? ==>
              r.next == Registers(program[s.pc + 2], LdaStatus(s.status, program[s.pc + 2]), s.pc + 2)
    ensures r.Stop? && r.outcome == Halted <==>
              s.pc < |program| && program[s.pc] == 0x00 && s.pc < 0xFFFF
    ensures r.Stop? && r.outcome == Halted ==> r.last == s.(pc := s.pc + 1)
    ensures r.Stop? && r.outcome.Panicked? ==> r.last.a == s.a && r.last.status == s.status
  {
    if s.pc >= |program| then Stop(Panicked(IndexOutOfBounds(s.pc)), s)
    else
      match FromU8(program[s.pc])
      case None => Stop(Panicked(UnknownOpcode(program[s.pc])), s)
      case Some(op) =>
        if s.pc == 0xFFFF then Stop(Panicked(CounterOverflow), s)
        else
          var pc := s.pc + 1;
          match op
          case BRK => Stop(Halted, s.(pc := pc))
          case LDA =>
            if pc + 1 >= |program| then Stop(Panicked(IndexOutOfBounds(pc + 1)), s.(pc := pc))
            else if pc == 0xFFFF then Stop(Panicked(CounterOverflow), s.(pc := pc))
            else
              var param := program[pc + 1];
              Continue(Registers(param, LdaStatus(s.status, param), pc + 1))
  }

  /** The whole `interpret` loop from `s`: the outcome and the registers it leaves. */
  function Exec(program: seq<bv8>, s: Registers): (Outcome, Registers)
    decreases |program| - s.pc
  {
    match Step(program, s)
    case Stop(outcome, last) => (outcome, last)
    case Continue(next) => Exec(program, next)
  }

  /** The counter never moves backwards over a run. */
  lemma {:induction false} ExecCounterNeverDecreases(program: seq<bv8>, s: Registers)
    ensures Exec(program, s).1.pc >= s.pc
    decreases |program| - s.pc
  {
    match Step(program, s)
    case Stop(_, _) =>
    case Continue(next) =>
      ExecCounterNeverDecreases(program, next);
  }

  /** A run returns normally only on BRK, leaving the counter one past the BRK byte. */
  lemma {:induction false} ExecHaltsOnlyOnBrk(program: seq<bv8>, s: Registers)
    requires Exec(program, s).0 == Halted
    ensures s.pc < Exec(program, s).1.pc <= |program|
    ensures program[Exec(program, s).1.pc - 1] == 0x00
    decreases |program| - s.pc
  {
    match Step(program, s)
    case Stop(_, _) =>
    case Continue(next) =>
      ExecHaltsOnlyOnBrk(program, next);
  }

  /** A run that panics on an unknown opcode stops with the counter on that byte. */
  lemma {:induction false} ExecStopsOnUnknownOpcode(program: seq<bv8>, s: Registers, b: bv8)
    requires Exec(program, s).0 == Panicked(UnknownOpcode(b))
    ensures Exec(program, s).1.pc < |program| && program[Exec(program, s).1.pc] == b
    ensures b != 0xA9 && b != 0x00
    decreases |program| - s.pc
  {
    match Step(program, s)
    case Stop(_, _) =>
    case Continue(next) =>
      ExecStopsOnUnknownOpcode(program, next, b);
  }

  /** A run changes no status bit other than zero (bit 1) and negative (bit 7). */
  lemma {:induction false} ExecKeepsOtherFlags(program: seq<bv8>, s: Registers)
    ensures Exec(program, s).1.status & OtherFlags == s.status & OtherFlags
    decreases |program| - s.pc
  {
    match Step(program, s)
    case Stop(_, _) =>
    case Continue(next) =>
      ExecKeepsOtherFlags(program, next);
  }

  /** Once an LDA has run, the zero and negative flags track the accumulator to the end of the run. */
  lemma {:induction false} ExecFlagsTrackAfterLoad(program: seq<bv8>, s: Registers)
    requires Exec(program, s).1.pc >= s.pc + 2 || FlagsTrack(s)
    ensures FlagsTrack(Exec(program, s).1)
    decreases |program| - s.pc
  {
    match Step(program, s)
    case Stop(_, _) =>
    case Continue(next) =>
      ExecFlagsTrackAfterLoad(program, next);
  }

  /**
   * LDA's operand is the byte the next pass fetches as an opcode.  So a run
   * that halts after at least one LDA always ends with A == 0 (the BRK byte),
   * the zero flag set and the negative flag clear.
   */
  lemma {:induction false} HaltAfterLoadLeavesZero(program: seq<bv8>, s: Registers)
    requires Exec(program, s).0 == Halted
    requires Exec(program, s).1.pc >= s.pc + 2
    ensures Exec(program, s).1.a == 0
    ensures Exec(program, s).1.status & ZeroFlag != 0
    ensures Exec(program, s).1.status & NegativeFlag == 0
    decreases |program| - s.pc
  {
    match Step(program, s)
    case Stop(_, _) =>
    case Continue(next) =>
      if Exec(program, next).1.pc >= next.pc + 2 {
        HaltAfterLoadLeavesZero(program, next);
      } else {
        ExecHaltsOnlyOnBrk(program, next);
        // The next pass is the BRK that stops the run, and it is the byte LDA loaded.
        assert Step(program, next).Stop?;
        assert program[next.pc] == 0x00;
        assert next.a == 0;
      }
  }

  /**
   * For a program of at most 64 KiB, a run from an even counter (as `interpret`
   * starts, at 0) never reaches the `u16` overflow of `program_counter += 1`,
   * so debug and release builds behave alike on it.
   */
  lemma {:induction false} NoOverflowInBound(program: seq<bv8>, s: Registers)
    requires |program| <= 0x10000 && s.pc % 2 == 0
    ensures Exec(program, s).0 != Panicked(CounterOverflow)
    decreases |program| - s.pc
  {
    match Step(program, s)
    case Stop(_, _) =>
    case Continue(next) =>
      NoOverflowInBound(program, next);
  }

  /** A program of only BRK halts at once with the counter at 1 and A and status untouched. */
  lemma BrkOnly(a: bv8, status: bv8)
    ensures Exec([0x00], Registers(a, status, 0)) == (Halted, Registers(a, status, 1))
  {
  }

  /**
   * The operand quirk on a concrete program: `LDA #$05; BRK; BRK` loads the
   * BRK byte after the 0x05, not 0x05, and halts with the counter at 3.
   */
  lemma LdaSkipsOperandByte()
    ensures Exec([0xA9, 0x05, 0x00, 0x00], Registers(0, 0, 0)) == (Halted, Registers(0x00, 0x02, 3))
  {
    assert Step([0xA9, 0x05, 0x00, 0x00], Registers(0, 0, 0)) == Continue(Registers(0x00, 0x02, 2));
  }

  /**
   * `LDA #$C0; TAX; INX; BRK` loads 0xAA (the TAX byte), then fetches that
   * byte as an opcode and panics on it with the counter at 2.
   */
  lemma LdaTaxInxPanics()
    ensures Exec([0xA9, 0xC0, 0xAA, 0xE8, 0x00], Registers(0, 0, 0)) ==
            (Panicked(UnknownOpcode(0xAA)), Registers(0xAA, 0x80, 2))
  {
    assert Step([0xA9, 0xC0, 0xAA, 0xE8, 0x00], Registers(0, 0, 0)) == Continue(Registers(0xAA, 0x80, 2));
  }

  /** An empty program panics on the first fetch. */
  lemma EmptyProgramPanics(s: Registers)
    requires s.pc == 0
    ensures Exec([], s) == (Panicked(IndexOutOfBounds(0)), s)
  {
  }

  /** The source's `CPU`: fields updated in place by `interpret`. */
  class CPU {
    var a: bv8
    var status: bv8
    var programCounter: U16

    /** The fields as a `Registers` value. */
    function State(): Registers
      reads this
    {
      Registers(a, status, programCounter)
    }

    /** `CPU::new()`: every field zero. */
    constructor ()
      ensures a == 0 && status == 0 && programCounter == 0
    {
      a, status, programCounter := 0, 0, 0;
    }

    /** The zero- and negative-flag update LDA performs on `status` after loading `a`. */
    method UpdateLdaFlags()
      modifies this`status
      ensures status == LdaStatus(old(status), a)
    {
      if a == 0 {
        status := status | 0x02;
      } else {
        status := status & 0xFD;
      }

      if a & 0x80 != 0 {
        status := status | 0x80;
      } else {
        status := status & 0x7F;
      }
    }

    /**
     * `interpret`: reset the counter to 0, then fetch, decode and execute
     * until BRK returns or an operation panics.  The outcome and the new
     * fields are those of `Exec` from the old accumulator and status.
     */
    method Interpret(program: seq<bv8>) returns (outcome: Outcome)
      modifies this
      ensures (outcome, State()) == Exec(program, Registers(old(a), old(status), 0))
    {
      programCounter := 0;
      while true
        invariant programCounter <= |program|
        invariant Exec(program, State()) == Exec(program, Registers(old(a), old(status), 0))
        decreases |program| - programCounter
      {
        ghost var before := State();
        if programCounter >= |program| {
          assert Step(program, before) == Stop(Panicked(IndexOutOfBounds(programCounter)), State());
          return Panicked(IndexOutOfBounds(programCounter));
        }
        var opcode := FromU8(program[programCounter]);
        if opcode == None {
          assert Step(program, before) == Stop(Panicked(UnknownOpcode(program[programCounter])), State());
          return Panicked(UnknownOpcode(program[programCounter]));
        }
        if programCounter == 0xFFFF {
          assert Step(program, before) == Stop(Panicked(CounterOverflow), State());
          return Panicked(CounterOverflow);
        }
        programCounter := programCounter + 1;

        match opcode.value
        case LDA =>
          if programCounter + 1 >= |program| {
            assert Step(program, before) == Stop(Panicked(IndexOutOfBounds(programCounter + 1)), State());
            return Panicked(IndexOutOfBounds(programCounter + 1));
          }
          var param := program[programCounter + 1];
          if programCounter == 0xFFFF {
            assert Step(program, before) == Stop(Panicked(CounterOverflow), State());
            return Panicked(CounterOverflow);
          }
          programCounter := programCounter + 1;
          a := param;
          UpdateLdaFlags();
          assert Step(program, before) == Continue(State());
        case BRK =>
          assert Step(program, before) == Stop(Halted, State());
          return Halted;
      }
    }
  }

  /** A fresh CPU has A == 0 with the zero flag clear: its flags do not yet track A. */
  method NewCpuFlags() returns (tracks: bool)
    ensures !tracks
  {
    var cpu := new CPU();
    tracks := FlagsTrack(cpu.State());
  }

  /** A fresh CPU running `LDA #$05; BRK; BRK` halts with A == 0, only the zero flag set and the counter at 3. */
  method InterpretLdaBrk() returns (outcome: Outcome, a: bv8, status: bv8, pc: int)
    ensures outcome == Halted && a == 0x00 && status == 0x02 && pc == 3
  {
    var cpu := new CPU();
    outcome := cpu.Interpret([0xA9, 0x05, 0x00, 0x00]);
    LdaSkipsOperandByte();
    a, status, pc := cpu.a, cpu.status, cpu.programCounter;
  }
}
