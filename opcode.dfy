/** The static 6502 opcode table (src/opcode.rs) and its linear-search lookup. */
module Opcodes {
  import opened Wrappers

  /** The addressing modes the table uses. */
  datatype AddressingMode =
    | Immediate
    | ZeroPage
    | ZeroPageX
    | Absolute
    | AbsoluteX
    | AbsoluteY
    | IndirectX
    | IndirectY
    | NoneAddressing

  /** An unsigned 8-bit value, as the table's `u8` fields hold. */
  type U8 = x: int | 0 <= x < 0x100

  /** One immutable opcode descriptor; the datatype constructor plays the role of `OpCode::new`. */
  datatype OpCode = OpCode(hex: U8, mnemonic: string, bytes: U8, cycles: U8, mode: AddressingMode)

  /** The table, in source order. */
  const CpuOpCodes: seq<OpCode> := [
    // ADC
    OpCode(0x69, "ADC", 2, 3, Immediate),
    OpCode(0x65, "ADC", 2, 3, ZeroPage),
    OpCode(0x75, "ADC", 2, 4, ZeroPageX),
    OpCode(0x6d, "ADC", 3, 4, Absolute),
    OpCode(0x7d, "ADC", 3, 4, AbsoluteY),
    OpCode(0x79, "ADC", 3, 4, AbsoluteY),
    OpCode(0x61, "ADC", 2, 6, IndirectX),
    OpCode(0x71, "ADC", 2, 5, IndirectY),
    // LDA
    OpCode(0xa9, "LDA", 2, 2, Immediate),
    OpCode(0xa5, "LDA", 2, 3, ZeroPage),
    OpCode(0xb5, "LDA", 2, 4, ZeroPageX),
    OpCode(0xad, "LDA", 3, 4, Absolute),
    OpCode(0xbd, "LDA", 3, 4, AbsoluteX),
    OpCode(0xb9, "LDA", 3, 4, AbsoluteY),
    OpCode(0xa1, "LDA", 2, 6, IndirectX),
    OpCode(0xb1, "LDA", 2, 5, IndirectX),
    // STA
    OpCode(0x85, "STA", 2, 3, ZeroPage),
    OpCode(0x95, "STA", 2, 4, ZeroPageX),
    OpCode(0x8d, "STA", 3, 4, Absolute),
    OpCode(0x9d, "STA", 3, 5, AbsoluteX),
    OpCode(0x99, "STA", 3, 5, AbsoluteY),
    OpCode(0x81, "STA", 2, 6, IndirectX),
    OpCode(0x91, "STA", 2, 6, IndirectY),
    // TAX
    OpCode(0xaa, "TAX", 1, 2, NoneAddressing),
    // INX
    OpCode(0xe8, "INX", 1, 2, NoneAddressing),
    // BRK
    OpCode(0x00, "BRK", 1, 7, NoneAddressing)
  ]

  /**
   * Linear first-match search of `table` for `val`.  `None` stands for the
   * source's panic on a miss.
   */
  function Lookup(table: seq<OpCode>, val: U8): (r: Option<OpCode>)
    ensures r.Some? ==> r.value.hex == val && r.value in table
    ensures r.None? <==> forall op :: op in table ==> op.hex != val
    ensures r.Some? ==> exists i :: 0 <= i < |table| && table[i] == r.value &&
                                    forall j :: 0 <= j < i ==> table[j].hex != val
  {
    if table == [] then None
    else if table[0].hex == val then
      Some(table[0])
    else
      var r := Lookup(table[1..], val);
      assert forall op :: op in table ==> op == table[0] || op in table[1..];
      if r.Some? then
        var i :| 0 <= i < |table[1..]| && table[1..][i] == r.value &&
                 forall j :: 0 <= j < i ==> table[1..][j].hex != val;
        assert table[i + 1] == r.value;
        assert forall j :: 0 <= j < i + 1 ==> table[j].hex != val by {
          forall j | 0 <= j < i + 1 ensures table[j].hex != val {
            if j > 0 { assert table[j] == table[1..][j - 1]; }
          }
        }
        r
      else
        r
  }

  /** `OpCode::from_u8`: look `val` up in the opcode table. */
  function FromU8(val: U8): (r: Option<OpCode>)
    ensures r.Some? ==> r.value.hex == val && r.value in CpuOpCodes
    ensures r.None? <==> forall op :: op in CpuOpCodes ==> op.hex != val
  {
    Lookup(CpuOpCodes, val)
  }

  /** The instruction length an addressing mode implies: opcode byte plus operand bytes. */
  function ModeBytes(mode: AddressingMode): (r: U8)
    ensures 1 <= r <= 3
    ensures r == 1 <==> mode == NoneAddressing
    ensures r == 3 <==> mode in {Absolute, AbsoluteX, AbsoluteY}
  {
    match mode
    case NoneAddressing => 1
    case Absolute | AbsoluteX | AbsoluteY => 3
    case Immediate | ZeroPage | ZeroPageX | IndirectX | IndirectY => 2
  }

  /**
   * Direct keyed index: the position of `val`'s descriptor in the table, the
   * way a 256-entry array indexed by the opcode byte would find it.
   */
  function Slot(val: U8): (r: Option<nat>)
    ensures r.Some? ==> r.value < |CpuOpCodes| && CpuOpCodes[r.value].hex == val
    ensures r.None? ==> forall i :: 0 <= i < |CpuOpCodes| ==> CpuOpCodes[i].hex != val
  {
    if val == 0x69 then Some(0)
    else if val == 0x65 then Some(1)
    else if val == 0x75 then Some(2)
    else if val == 0x6d then Some(3)
    else if val == 0x7d then Some(4)
    else if val == 0x79 then Some(5)
    else if val == 0x61 then Some(6)
    else if val == 0x71 then Some(7)
    else if val == 0xa9 then Some(8)
    else if val == 0xa5 then Some(9)
    else if val == 0xb5 then Some(10)
    else if val == 0xad then Some(11)
    else if val == 0xbd then Some(12)
    else if val == 0xb9 then Some(13)
    else if val == 0xa1 then Some(14)
    else if val == 0xb1 then Some(15)
    else if val == 0x85 then Some(16)
    else if val == 0x95 then Some(17)
    else if val == 0x8d then Some(18)
    else if val == 0x9d then Some(19)
    else if val == 0x99 then Some(20)
    else if val == 0x81 then Some(21)
    else if val == 0x91 then Some(22)
    else if val == 0xaa then Some(23)
    else if val == 0xe8 then Some(24)
    else if val == 0x00 then Some(25)
    else None
  }

  /** The keyed lookup the linear search is compared against. */
  function DirectLookup(val: U8): (r: Option<OpCode>)
  {
    match Slot(val)
    case Some(k) => Some(CpuOpCodes[k])
    case None => None
  }

  lemma SlotIndexesAdc()
    ensures forall i :: 0 <= i < 8 ==> Slot(CpuOpCodes[i].hex) == Some(i)
  {
  }

  lemma SlotIndexesLda()
    ensures forall i :: 8 <= i < 16 ==> Slot(CpuOpCodes[i].hex) == Some(i)
  {
  }

  lemma SlotIndexesSta()
    ensures forall i :: 16 <= i < 23 ==> Slot(CpuOpCodes[i].hex) == Some(i)
  {
  }

  lemma SlotIndexesImplied()
    ensures forall i :: 23 <= i < |CpuOpCodes| ==> Slot(CpuOpCodes[i].hex) == Some(i)
  {
  }

  /** Every entry sits at the slot its own opcode value names. */
  lemma SlotIndexesTable()
    ensures forall i :: 0 <= i < |CpuOpCodes| ==> Slot(CpuOpCodes[i].hex) == Some(i)
  {
    SlotIndexesAdc();
    SlotIndexesLda();
    SlotIndexesSta();
    SlotIndexesImplied();
  }

  /** No two table entries share an opcode value. */
  lemma HexesDistinct()
    ensures forall i, j ::
              0 <= i < |CpuOpCodes| && 0 <= j < |CpuOpCodes| && CpuOpCodes[i].hex == CpuOpCodes[j].hex
              ==> i == j
  {
    SlotIndexesTable();
  }

  /**
   * Because the keys are distinct, the first-match linear search returns the
   * same answer as direct keyed lookup, for every byte.
   */
  lemma FromU8IsDirectLookup(val: U8)
    ensures FromU8(val) == DirectLookup(val)
  {
    SlotIndexesTable();
    var r := FromU8(val);
    if r.Some? {
      var i :| 0 <= i < |CpuOpCodes| && CpuOpCodes[i] == r.value;
      assert Slot(val) == Some(i);
    }
  }

  /** `FromU8(v)` yields `op` exactly when `op` is the table entry for `v`. */
  lemma FromU8IsKeyedLookup(val: U8, op: OpCode)
    ensures FromU8(val) == Some(op) <==> (op in CpuOpCodes && op.hex == val)
  {
    FromU8IsDirectLookup(val);
    if op in CpuOpCodes && op.hex == val {
      SlotIndexesTable();
      var i :| 0 <= i < |CpuOpCodes| && CpuOpCodes[i] == op;
      assert Slot(val) == Some(i);
    }
  }

  /** Every entry's byte length is 1, 2 or 3 and is the one its addressing mode implies. */
  lemma BytesAgreeWithMode()
    ensures forall op :: op in CpuOpCodes ==> 1 <= op.bytes <= 3 && op.bytes == ModeBytes(op.mode)
  {
    assert forall i :: 0 <= i < |CpuOpCodes| ==> CpuOpCodes[i].bytes == ModeBytes(CpuOpCodes[i].mode);
  }

  /** Concrete entries of the keyed index, each evaluated on its own. */
  lemma DirectLookupZeroPageLda()
    ensures DirectLookup(0xa5) == Some(OpCode(0xa5, "LDA", 2, 3, ZeroPage))
  {
  }

  lemma DirectLookupImplied()
    ensures DirectLookup(0x00) == Some(OpCode(0x00, "BRK", 1, 7, NoneAddressing))
    ensures DirectLookup(0xaa) == Some(OpCode(0xaa, "TAX", 1, 2, NoneAddressing))
    ensures DirectLookup(0xe8) == Some(OpCode(0xe8, "INX", 1, 2, NoneAddressing))
  {
  }

  lemma DirectLookupQuirks()
    ensures DirectLookup(0x7d) == Some(OpCode(0x7d, "ADC", 3, 4, AbsoluteY))
    ensures DirectLookup(0xb1) == Some(OpCode(0xb1, "LDA", 2, 5, IndirectX))
  {
  }

  lemma DirectLookupMiss()
    ensures DirectLookup(0xea) == None
  {
  }

  /** The source's unit test: 0xa5 is the zero-page LDA. */
  lemma FromU8ZeroPageLda()
    ensures FromU8(0xa5) == Some(OpCode(0xa5, "LDA", 2, 3, ZeroPage))
  {
    FromU8IsDirectLookup(0xa5);
    DirectLookupZeroPageLda();
  }

  /** The three one-byte instructions. */
  lemma FromU8ImpliedInstructions()
    ensures FromU8(0x00) == Some(OpCode(0x00, "BRK", 1, 7, NoneAddressing))
    ensures FromU8(0xaa) == Some(OpCode(0xaa, "TAX", 1, 2, NoneAddressing))
    ensures FromU8(0xe8) == Some(OpCode(0xe8, "INX", 1, 2, NoneAddressing))
  {
    FromU8IsDirectLookup(0x00);
    FromU8IsDirectLookup(0xaa);
    FromU8IsDirectLookup(0xe8);
    DirectLookupImplied();
  }

  /**
   * Table entries kept as written: 0x7d ADC is tabled AbsoluteY and 0xb1 LDA
   * is tabled IndirectX.
   */
  lemma TableQuirks()
    ensures FromU8(0x7d) == Some(OpCode(0x7d, "ADC", 3, 4, AbsoluteY))
    ensures FromU8(0xb1) == Some(OpCode(0xb1, "LDA", 2, 5, IndirectX))
  {
    FromU8IsDirectLookup(0x7d);
    FromU8IsDirectLookup(0xb1);
    DirectLookupQuirks();
  }

  /** The two quirks leave gaps in the table: no ADC entry is AbsoluteX and no LDA entry is IndirectY. */
  lemma QuirkGaps()
    ensures forall op :: op in CpuOpCodes && op.mnemonic == "ADC" ==> op.mode != AbsoluteX
    ensures forall op :: op in CpuOpCodes && op.mnemonic == "LDA" ==> op.mode != IndirectY
  {
    assert forall i :: 0 <= i < |CpuOpCodes| ==> CpuOpCodes[i].mnemonic != "ADC" || CpuOpCodes[i].mode != AbsoluteX;
    assert forall i :: 0 <= i < |CpuOpCodes| ==> CpuOpCodes[i].mnemonic != "LDA" || CpuOpCodes[i].mode != IndirectY;
  }

  /** No STA entry uses Immediate addressing. */
  lemma NoImmediateStore()
    ensures forall op :: op in CpuOpCodes && op.mnemonic == "STA" ==> op.mode != Immediate
  {
    assert forall i :: 0 <= i < |CpuOpCodes| ==> CpuOpCodes[i].mnemonic != "STA" || CpuOpCodes[i].mode != Immediate;
  }

  /** A byte that is not in the table (0xea) takes the panic path. */
  lemma FromU8Miss()
    ensures FromU8(0xea) == None
  {
    FromU8IsDirectLookup(0xea);
    DirectLookupMiss();
  }
}
