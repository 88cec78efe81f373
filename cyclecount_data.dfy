/**
 * The registrations the cycle counter's module body makes, in source order:
 * each decorated handler with the name, addressing mode and cycle counts
 * given to `instruction`. They are grouped by the high hex digit of the
 * opcode in the handler's name.
 */
module CycleCountData {
  import opened Wrappers
  import opened PyText
  import opened CycleCount

  /** Every branch (`rel` mode) is registered with two cycles and two extra cycles. */
  predicate BranchTimings(regs: seq<(Registration, PyFunction)>)
  {
    forall i :: 0 <= i < |regs| && regs[i].0.mode == "rel" ==> regs[i].0.cycles == 2 && regs[i].0.extracycles == 2
  }

  /** Opcodes $00-$0F (cyclecount.py:52-98). */
  const Row0: seq<(Registration, PyFunction)> := [
    (Instruction("BRK", "imp", 7), PyFunction("inst_0x00")),
    (Instruction("ORA", "inx", 6), PyFunction("inst_0x01")),
    (Instruction("ORA", "zpg", 3), PyFunction("inst_0x05")),
    (Instruction("ASL", "zpg", 5), PyFunction("inst_0x06")),
    (Instruction("PHP", "imp", 3), PyFunction("inst_0x08")),
    (Instruction("ORA", "imm", 2), PyFunction("inst_0x09")),
    (Instruction("ASL", "acc", 2), PyFunction("inst_0x0a")),
    (Instruction("ORA", "abs", 4), PyFunction("inst_0x0d")),
    (Instruction("ASL", "abs", 6), PyFunction("inst_0x0e"))]

  /** Opcodes $10-$1F (cyclecount.py:102-136). */
  const Row1: seq<(Registration, PyFunction)> := [
    (Instruction("BPL", "rel", 2, 2), PyFunction("inst_0x10")),
    (Instruction("ORA", "iny", 5, 1), PyFunction("inst_0x11")),
    (Instruction("ORA", "zpx", 4), PyFunction("inst_0x15")),
    (Instruction("ASL", "zpx", 6), PyFunction("inst_0x16")),
    (Instruction("CLC", "imp", 2), PyFunction("inst_0x18")),
    (Instruction("ORA", "aby", 4, 1), PyFunction("inst_0x19")),
    (Instruction("ORA", "abx", 4, 1), PyFunction("inst_0x1d")),
    (Instruction("ASL", "abx", 7), PyFunction("inst_0x1e"))]

  /** Opcodes $20-$2F (cyclecount.py:140-189). */
  const Row2: seq<(Registration, PyFunction)> := [
    (Instruction("JSR", "abs", 6), PyFunction("inst_0x20")),
    (Instruction("AND", "inx", 6), PyFunction("inst_0x21")),
    (Instruction("BIT", "zpg", 3), PyFunction("inst_0x24")),
    (Instruction("AND", "zpg", 3), PyFunction("inst_0x25")),
    (Instruction("ROL", "zpg", 5), PyFunction("inst_0x26")),
    (Instruction("PLP", "imp", 4), PyFunction("inst_0x28")),
    (Instruction("AND", "imm", 2), PyFunction("inst_0x29")),
    (Instruction("ROL", "acc", 2), PyFunction("inst_0x2a")),
    (Instruction("BIT", "abs", 4), PyFunction("inst_0x2c")),
    (Instruction("AND", "abs", 4), PyFunction("inst_0x2d")),
    (Instruction("ROL", "abs", 6), PyFunction("inst_0x2e"))]

  /** Opcodes $30-$3F (cyclecount.py:193-227). */
  const Row3: seq<(Registration, PyFunction)> := [
    (Instruction("BMI", "rel", 2, 2), PyFunction("inst_0x30")),
    (Instruction("AND", "iny", 5, 1), PyFunction("inst_0x31")),
    (Instruction("AND", "zpx", 4), PyFunction("inst_0x35")),
    (Instruction("ROL", "zpx", 6), PyFunction("inst_0x36")),
    (Instruction("SEC", "imp", 2), PyFunction("inst_0x38")),
    (Instruction("AND", "aby", 4, 1), PyFunction("inst_0x39")),
    (Instruction("AND", "abx", 4, 1), PyFunction("inst_0x3d")),
    (Instruction("ROL", "abx", 7), PyFunction("inst_0x3e"))]

  /** Opcodes $40-$4F (cyclecount.py:231-274). */
  const Row4: seq<(Registration, PyFunction)> := [
    (Instruction("RTI", "imp", 6), PyFunction("inst_0x40")),
    (Instruction("EOR", "inx", 6), PyFunction("inst_0x41")),
    (Instruction("EOR", "zpg", 3), PyFunction("inst_0x45")),
    (Instruction("LSR", "zpg", 5), PyFunction("inst_0x46")),
    (Instruction("PHA", "imp", 3), PyFunction("inst_0x48")),
    (Instruction("EOR", "imm", 2), PyFunction("inst_0x49")),
    (Instruction("LSR", "acc", 2), PyFunction("inst_0x4a")),
    (Instruction("JMP", "abs", 3), PyFunction("inst_0x4c")),
    (Instruction("EOR", "abs", 4), PyFunction("inst_0x4d")),
    (Instruction("LSR", "abs", 6), PyFunction("inst_0x4e"))]

  /** Opcodes $50-$5F (cyclecount.py:278-312). */
  const Row5: seq<(Registration, PyFunction)> := [
    (Instruction("BVC", "rel", 2, 2), PyFunction("inst_0x50")),
    (Instruction("EOR", "iny", 5, 1), PyFunction("inst_0x51")),
    (Instruction("EOR", "zpx", 4), PyFunction("inst_0x55")),
    (Instruction("LSR", "zpx", 6), PyFunction("inst_0x56")),
    (Instruction("CLI", "imp", 2), PyFunction("inst_0x58")),
    (Instruction("EOR", "aby", 4, 1), PyFunction("inst_0x59")),
    (Instruction("EOR", "abx", 4, 1), PyFunction("inst_0x5d")),
    (Instruction("LSR", "abx", 7), PyFunction("inst_0x5e"))]

  /** Opcodes $60-$6F (cyclecount.py:316-361). */
  const Row6: seq<(Registration, PyFunction)> := [
    (Instruction("RTS", "imp", 6), PyFunction("inst_0x60")),
    (Instruction("ADC", "inx", 6), PyFunction("inst_0x61")),
    (Instruction("ADC", "zpg", 3), PyFunction("inst_0x65")),
    (Instruction("ROR", "zpg", 5), PyFunction("inst_0x66")),
    (Instruction("PLA", "imp", 4), PyFunction("inst_0x68")),
    (Instruction("ADC", "imm", 2), PyFunction("inst_0x69")),
    (Instruction("ROR", "acc", 2), PyFunction("inst_0x6a")),
    (Instruction("JMP", "ind", 5), PyFunction("inst_0x6c")),
    (Instruction("ADC", "abs", 4), PyFunction("inst_0x6d")),
    (Instruction("ROR", "abs", 6), PyFunction("inst_0x6e"))]

  /** Opcodes $70-$7F (cyclecount.py:365-399). */
  const Row7: seq<(Registration, PyFunction)> := [
    (Instruction("BVS", "rel", 2, 2), PyFunction("inst_0x70")),
    (Instruction("ADC", "iny", 5, 1), PyFunction("inst_0x71")),
    (Instruction("ADC", "zpx", 4), PyFunction("inst_0x75")),
    (Instruction("ROR", "zpx", 6), PyFunction("inst_0x76")),
    (Instruction("SEI", "imp", 2), PyFunction("inst_0x78")),
    (Instruction("ADC", "aby", 4, 1), PyFunction("inst_0x79")),
    (Instruction("ADC", "abx", 4, 1), PyFunction("inst_0x7d")),
    (Instruction("ROR", "abx", 7), PyFunction("inst_0x7e"))]

  /** Opcodes $80-$8F (cyclecount.py:403-445). */
  const Row8: seq<(Registration, PyFunction)> := [
    (Instruction("STA", "inx", 6), PyFunction("inst_0x81")),
    (Instruction("STY", "zpg", 3), PyFunction("inst_0x84")),
    (Instruction("STA", "zpg", 3), PyFunction("inst_0x85")),
    (Instruction("STX", "zpg", 3), PyFunction("inst_0x86")),
    (Instruction("DEY", "imp", 2), PyFunction("inst_0x88")),
    (Instruction("TXA", "imp", 2), PyFunction("inst_0x8a")),
    (Instruction("STY", "abs", 4), PyFunction("inst_0x8c")),
    (Instruction("STA", "abs", 4), PyFunction("inst_0x8d")),
    (Instruction("STX", "abs", 4), PyFunction("inst_0x8e"))]

  /** Opcodes $90-$9F (cyclecount.py:449-488). */
  const Row9: seq<(Registration, PyFunction)> := [
    (Instruction("BCC", "rel", 2, 2), PyFunction("inst_0x90")),
    (Instruction("STA", "iny", 6), PyFunction("inst_0x91")),
    (Instruction("STY", "zpx", 4), PyFunction("inst_0x94")),
    (Instruction("STA", "zpx", 4), PyFunction("inst_0x95")),
    (Instruction("STX", "zpy", 4), PyFunction("inst_0x96")),
    (Instruction("TYA", "imp", 2), PyFunction("inst_0x98")),
    (Instruction("STA", "aby", 5), PyFunction("inst_0x99")),
    (Instruction("TXS", "imp", 2), PyFunction("inst_0x9a")),
    (Instruction("STA", "abx", 5), PyFunction("inst_0x9d"))]

  /** Opcodes $A0-$AF (cyclecount.py:492-548). */
  const RowA: seq<(Registration, PyFunction)> := [
    (Instruction("LDY", "imm", 2), PyFunction("inst_0xa0")),
    (Instruction("LDA", "inx", 6), PyFunction("inst_0xa1")),
    (Instruction("LDX", "imm", 2), PyFunction("inst_0xa2")),
    (Instruction("LDY", "zpg", 3), PyFunction("inst_0xa4")),
    (Instruction("LDA", "zpg", 3), PyFunction("inst_0xa5")),
    (Instruction("LDX", "zpg", 3), PyFunction("inst_0xa6")),
    (Instruction("TAY", "imp", 2), PyFunction("inst_0xa8")),
    (Instruction("LDA", "imm", 2), PyFunction("inst_0xa9")),
    (Instruction("TAX", "imp", 2), PyFunction("inst_0xaa")),
    (Instruction("LDY", "abs", 4), PyFunction("inst_0xac")),
    (Instruction("LDA", "abs", 4), PyFunction("inst_0xad")),
    (Instruction("LDX", "abs", 4), PyFunction("inst_0xae"))]

  /** Opcodes $B0-$BF (cyclecount.py:552-601). */
  const RowB: seq<(Registration, PyFunction)> := [
    (Instruction("BCS", "rel", 2, 2), PyFunction("inst_0xb0")),
    (Instruction("LDA", "iny", 5, 1), PyFunction("inst_0xb1")),
    (Instruction("LDY", "zpx", 4), PyFunction("inst_0xb4")),
    (Instruction("LDA", "zpx", 4), PyFunction("inst_0xb5")),
    (Instruction("LDX", "zpy", 4), PyFunction("inst_0xb6")),
    (Instruction("CLV", "imp", 2), PyFunction("inst_0xb8")),
    (Instruction("LDA", "aby", 4, 1), PyFunction("inst_0xb9")),
    (Instruction("TSX", "imp", 2), PyFunction("inst_0xba")),
    (Instruction("LDY", "abx", 4, 1), PyFunction("inst_0xbc")),
    (Instruction("LDA", "abx", 4, 1), PyFunction("inst_0xbd")),
    (Instruction("LDX", "aby", 4, 1), PyFunction("inst_0xbe"))]

  /** Opcodes $C0-$CF (cyclecount.py:605-658). */
  const RowC: seq<(Registration, PyFunction)> := [
    (Instruction("CPY", "imm", 2), PyFunction("inst_0xc0")),
    (Instruction("CMP", "inx", 6), PyFunction("inst_0xc1")),
    (Instruction("CPY", "zpg", 3), PyFunction("inst_0xc4")),
    (Instruction("CMP", "zpg", 3), PyFunction("inst_0xc5")),
    (Instruction("DEC", "zpg", 5), PyFunction("inst_0xc6")),
    (Instruction("INY", "imp", 2), PyFunction("inst_0xc8")),
    (Instruction("CMP", "imm", 2), PyFunction("inst_0xc9")),
    (Instruction("DEX", "imp", 2), PyFunction("inst_0xca")),
    (Instruction("CPY", "abs", 4), PyFunction("inst_0xcc")),
    (Instruction("CMP", "abs", 4), PyFunction("inst_0xcd")),
    (Instruction("DEC", "abs", 3), PyFunction("inst_0xce"))]

  /** Opcodes $D0-$DF (cyclecount.py:662-696). */
  const RowD: seq<(Registration, PyFunction)> := [
    (Instruction("BNE", "rel", 2, 2), PyFunction("inst_0xd0")),
    (Instruction("CMP", "iny", 5, 1), PyFunction("inst_0xd1")),
    (Instruction("CMP", "zpx", 4), PyFunction("inst_0xd5")),
    (Instruction("DEC", "zpx", 6), PyFunction("inst_0xd6")),
    (Instruction("CLD", "imp", 2), PyFunction("inst_0xd8")),
    (Instruction("CMP", "aby", 4, 1), PyFunction("inst_0xd9")),
    (Instruction("CMP", "abx", 4, 1), PyFunction("inst_0xdd")),
    (Instruction("DEC", "abx", 7), PyFunction("inst_0xde"))]

  /** Opcodes $E0-$EF (cyclecount.py:700-751). */
  const RowE: seq<(Registration, PyFunction)> := [
    (Instruction("CPX", "imm", 2), PyFunction("inst_0xe0")),
    (Instruction("SBC", "inx", 6), PyFunction("inst_0xe1")),
    (Instruction("CPX", "zpg", 3), PyFunction("inst_0xe4")),
    (Instruction("SBC", "zpg", 3), PyFunction("inst_0xe5")),
    (Instruction("INC", "zpg", 5), PyFunction("inst_0xe6")),
    (Instruction("INX", "imp", 2), PyFunction("inst_0xe8")),
    (Instruction("SBC", "imm", 2), PyFunction("inst_0xe9")),
    (Instruction("NOP", "imp", 2), PyFunction("inst_0xea")),
    (Instruction("CPX", "abs", 4), PyFunction("inst_0xec")),
    (Instruction("SBC", "abs", 4), PyFunction("inst_0xed")),
    (Instruction("INC", "abs", 6), PyFunction("inst_0xee"))]

  /** Opcodes $F0-$FF (cyclecount.py:755-789). */
  const RowF: seq<(Registration, PyFunction)> := [
    (Instruction("BEQ", "rel", 2, 2), PyFunction("inst_0xf0")),
    (Instruction("SBC", "iny", 5, 1), PyFunction("inst_0xf1")),
    (Instruction("SBC", "zpx", 4), PyFunction("inst_0xf5")),
    (Instruction("INC", "zpx", 6), PyFunction("inst_0xf6")),
    (Instruction("SED", "imp", 2), PyFunction("inst_0xf8")),
    (Instruction("SBC", "aby", 4, 1), PyFunction("inst_0xf9")),
    (Instruction("SBC", "abx", 4, 1), PyFunction("inst_0xfd")),
    (Instruction("INC", "abx", 7), PyFunction("inst_0xfe"))]

  /** All registrations, in the order the module body makes them. */
  const Registrations: seq<(Registration, PyFunction)> :=
    Row0 + Row1 + Row2 + Row3 + Row4 + Row5 + Row6 + Row7 + Row8 + Row9 + RowA + RowB + RowC + RowD + RowE + RowF

  lemma Row0BranchTimings()
    ensures BranchTimings(Row0)
  {
  }

  lemma Row1BranchTimings()
    ensures BranchTimings(Row1)
  {
  }

  lemma Row2BranchTimings()
    ensures BranchTimings(Row2)
  {
  }

  lemma Row3BranchTimings()
    ensures BranchTimings(Row3)
  {
  }

  lemma Row4BranchTimings()
    ensures BranchTimings(Row4)
  {
  }

  lemma Row5BranchTimings()
    ensures BranchTimings(Row5)
  {
  }

  lemma Row6BranchTimings()
    ensures BranchTimings(Row6)
  {
  }

  lemma Row7BranchTimings()
    ensures BranchTimings(Row7)
  {
  }

  lemma Row8BranchTimings()
    ensures BranchTimings(Row8)
  {
  }

  lemma Row9BranchTimings()
    ensures BranchTimings(Row9)
  {
  }

  lemma RowABranchTimings()
    ensures BranchTimings(RowA)
  {
  }

  lemma RowBBranchTimings()
    ensures BranchTimings(RowB)
  {
  }

  lemma RowCBranchTimings()
    ensures BranchTimings(RowC)
  {
  }

  lemma RowDBranchTimings()
    ensures BranchTimings(RowD)
  {
  }

  lemma RowEBranchTimings()
    ensures BranchTimings(RowE)
  {
  }

  lemma RowFBranchTimings()
    ensures BranchTimings(RowF)
  {
  }

  /** Branch timings hold for a concatenation when they hold for both parts. */
  lemma BranchTimingsAppend(a: seq<(Registration, PyFunction)>, b: seq<(Registration, PyFunction)>)
    requires BranchTimings(a) && BranchTimings(b)
    ensures BranchTimings(a + b)
  {
    forall i | 0 <= i < |a + b| && (a + b)[i].0.mode == "rel"
      ensures (a + b)[i].0.cycles == 2 && (a + b)[i].0.extracycles == 2
    {
      if i >= |a| {
        assert (a + b)[i] == b[i - |a|];
      }
    }
  }

  /** Every `rel` registration of the module supplies `cycles=2, extracycles=2`. */
  lemma RegistrationsBranchTimings()
    ensures |Registrations| == 151
    ensures BranchTimings(Registrations)
  {
    Row0BranchTimings(); Row1BranchTimings(); Row2BranchTimings(); Row3BranchTimings(); Row4BranchTimings(); Row5BranchTimings(); Row6BranchTimings(); Row7BranchTimings(); Row8BranchTimings(); Row9BranchTimings(); RowABranchTimings(); RowBBranchTimings(); RowCBranchTimings(); RowDBranchTimings(); RowEBranchTimings(); RowFBranchTimings();
    BranchTimingsAppend(Row0, Row1);
    BranchTimingsAppend(Row0 + Row1, Row2);
    BranchTimingsAppend(Row0 + Row1 + Row2, Row3);
    BranchTimingsAppend(Row0 + Row1 + Row2 + Row3, Row4);
    BranchTimingsAppend(Row0 + Row1 + Row2 + Row3 + Row4, Row5);
    BranchTimingsAppend(Row0 + Row1 + Row2 + Row3 + Row4 + Row5, Row6);
    BranchTimingsAppend(Row0 + Row1 + Row2 + Row3 + Row4 + Row5 + Row6, Row7);
    BranchTimingsAppend(Row0 + Row1 + Row2 + Row3 + Row4 + Row5 + Row6 + Row7, Row8);
    BranchTimingsAppend(Row0 + Row1 + Row2 + Row3 + Row4 + Row5 + Row6 + Row7 + Row8, Row9);
    BranchTimingsAppend(Row0 + Row1 + Row2 + Row3 + Row4 + Row5 + Row6 + Row7 + Row8 + Row9, RowA);
    BranchTimingsAppend(Row0 + Row1 + Row2 + Row3 + Row4 + Row5 + Row6 + Row7 + Row8 + Row9 + RowA, RowB);
    BranchTimingsAppend(Row0 + Row1 + Row2 + Row3 + Row4 + Row5 + Row6 + Row7 + Row8 + Row9 + RowA + RowB, RowC);
    BranchTimingsAppend(Row0 + Row1 + Row2 + Row3 + Row4 + Row5 + Row6 + Row7 + Row8 + Row9 + RowA + RowB + RowC, RowD);
    BranchTimingsAppend(Row0 + Row1 + Row2 + Row3 + Row4 + Row5 + Row6 + Row7 + Row8 + Row9 + RowA + RowB + RowC + RowD, RowE);
    BranchTimingsAppend(Row0 + Row1 + Row2 + Row3 + Row4 + Row5 + Row6 + Row7 + Row8 + Row9 + RowA + RowB + RowC + RowD + RowE, RowF);
  }

  // ---------------------------------------------------------------------------
  // Where the registrations land

  /** A handler named `inst_0x` followed by two lower-case hex digits. */
  predicate InstNamed(f: PyFunction)
  {
    |f.name| == 9 && f.name[..7] == "inst_0x" && IsLowerHexDigit(f.name[7]) && IsLowerHexDigit(f.name[8])
  }

  /** The byte the two digits of such a name spell. */
  function NamedOpcode(f: PyFunction): Byte
    requires InstNamed(f)
  {
    16 * HexDigitValue(f.name[7]) + HexDigitValue(f.name[8])
  }

  /** Reading a lower-case hex digit and writing the value back gives the digit. */
  lemma LowerHexCharOfValue(c: char)
    requires IsLowerHexDigit(c)
    ensures LowerHexChar(HexDigitValue(c)) == c
  {
  }

  /** Among lower-case hex digits, code-point order is the order of their values. */
  lemma HexDigitValueRises(c: char, d: char)
    requires IsLowerHexDigit(c) && IsLowerHexDigit(d) && c < d
    ensures HexDigitValue(c) < HexDigitValue(d)
  {
  }

  /** A handler named `inst_0x<hh>` is filed in slot `0xhh` of the 256-slot lists. */
  lemma InstNamedSlot(f: PyFunction)
    requires InstNamed(f)
    ensures SlotOf(f, 256) == Some(NamedOpcode(f) as nat)
  {
    var b, h, l := NamedOpcode(f), HexDigitValue(f.name[7]), HexDigitValue(f.name[8]);
    assert b / 16 == h && b % 16 == l;
    LowerHexCharOfValue(f.name[7]);
    LowerHexCharOfValue(f.name[8]);
    assert Hex2(b) == f.name[7..];
    assert f.name == "inst_0x" + Hex2(b);
    OpcodeOfInstName(b);
  }

  /** Every handler of `row` is named `inst_0x`, `high` and a digit, and the last digits rise strictly. */
  predicate NamedRow(row: seq<(Registration, PyFunction)>, high: char)
  {
    (forall i :: 0 <= i < |row| ==> InstNamed(row[i].1) && row[i].1.name[7] == high)
    && forall i :: 0 < i < |row| ==> row[i - 1].1.name[8] < row[i].1.name[8]
  }

  /** The opcodes the names of `regs` spell rise strictly and lie in `lo..hi-1`. */
  predicate Rising(regs: seq<(Registration, PyFunction)>, lo: int, hi: int)
  {
    (forall i :: 0 <= i < |regs| ==> InstNamed(regs[i].1) && lo <= NamedOpcode(regs[i].1) < hi)
    && forall i, j :: 0 <= i < j < |regs| ==> NamedOpcode(regs[i].1) < NamedOpcode(regs[j].1)
  }

  /** A row named under one high digit spells rising opcodes within that digit's sixteen. */
  lemma {:induction false} NamedRowRising(row: seq<(Registration, PyFunction)>, high: char)
    requires NamedRow(row, high) && IsLowerHexDigit(high)
    ensures Rising(row, 16 * HexDigitValue(high), 16 * HexDigitValue(high) + 16)
  {
    if row != [] {
      var prefix, last := row[..|row| - 1], row[|row| - 1];
      assert NamedRow(prefix, high) by {
        forall i | 0 <= i < |prefix| ensures prefix[i] == row[i] { }
      }
      NamedRowRising(prefix, high);
      if |prefix| > 0 {
        HexDigitValueRises(prefix[|prefix| - 1].1.name[8], last.1.name[8]);
        assert NamedOpcode(row[|row| - 2].1) < NamedOpcode(last.1);
      }
      forall i, j | 0 <= i < j < |row| ensures NamedOpcode(row[i].1) < NamedOpcode(row[j].1) {
        if j < |row| - 1 {
          assert row[i] == prefix[i] && row[j] == prefix[j];
        } else if i < |row| - 2 {
          assert row[i] == prefix[i] && row[|row| - 2] == prefix[|prefix| - 1];
        }
      }
    }
  }

  /** Two rising runs, the second above the first, make one rising run. */
  lemma RisingConcat(a: seq<(Registration, PyFunction)>, b: seq<(Registration, PyFunction)>, lo: int, mid: int, hi: int)
    requires lo <= mid <= hi && Rising(a, lo, mid) && Rising(b, mid, hi)
    ensures Rising(a + b, lo, hi)
  {
    forall i | 0 <= i < |a + b| ensures (a + b)[i] == if i < |a| then a[i] else b[i - |a|] { }
  }

  lemma Row0Named()
    ensures NamedRow(Row0, '0')
  {
    var p := Row0;
    // One case per entry.
    forall i | 0 <= i < |p| ensures InstNamed(p[i].1) && p[i].1.name[7] == '0' {
      if i == 0 {} else if i == 1 {} else if i == 2 {} else if i == 3 {} else if i == 4 {} else if i == 5 {} else if i == 6 {} else if i == 7 {} else {}
    }
    forall i | 0 < i < |p| ensures p[i - 1].1.name[8] < p[i].1.name[8] {
      if i == 1 {} else if i == 2 {} else if i == 3 {} else if i == 4 {} else if i == 5 {} else if i == 6 {} else if i == 7 {} else {}
    }
  }

  lemma Row1Named()
    ensures NamedRow(Row1, '1')
  {
    var p := Row1;
    // One case per entry.
    forall i | 0 <= i < |p| ensures InstNamed(p[i].1) && p[i].1.name[7] == '1' {
      if i == 0 {} else if i == 1 {} else if i == 2 {} else if i == 3 {} else if i == 4 {} else if i == 5 {} else if i == 6 {} else {}
    }
    forall i | 0 < i < |p| ensures p[i - 1].1.name[8] < p[i].1.name[8] {
      if i == 1 {} else if i == 2 {} else if i == 3 {} else if i == 4 {} else if i == 5 {} else if i == 6 {} else {}
    }
  }

  lemma Row2Named()
    ensures NamedRow(Row2, '2')
  {
    var p := Row2;
    // One case per entry.
    forall i | 0 <= i < |p| ensures InstNamed(p[i].1) && p[i].1.name[7] == '2' {
      if i == 0 {} else if i == 1 {} else if i == 2 {} else if i == 3 {} else if i == 4 {} else if i == 5 {} else if i == 6 {} else if i == 7 {} else if i == 8 {} else if i == 9 {} else {}
    }
    forall i | 0 < i < |p| ensures p[i - 1].1.name[8] < p[i].1.name[8] {
      if i == 1 {} else if i == 2 {} else if i == 3 {} else if i == 4 {} else if i == 5 {} else if i == 6 {} else if i == 7 {} else if i == 8 {} else if i == 9 {} else {}
    }
  }

  lemma Row3Named()
    ensures NamedRow(Row3, '3')
  {
    var p := Row3;
    // One case per entry.
    forall i | 0 <= i < |p| ensures InstNamed(p[i].1) && p[i].1.name[7] == '3' {
      if i == 0 {} else if i == 1 {} else if i == 2 {} else if i == 3 {} else if i == 4 {} else if i == 5 {} else if i == 6 {} else {}
    }
    forall i | 0 < i < |p| ensures p[i - 1].1.name[8] < p[i].1.name[8] {
      if i == 1 {} else if i == 2 {} else if i == 3 {} else if i == 4 {} else if i == 5 {} else if i == 6 {} else {}
    }
  }

  lemma Row4Named()
    ensures NamedRow(Row4, '4')
  {
    var p := Row4;
    // One case per entry.
    forall i | 0 <= i < |p| ensures InstNamed(p[i].1) && p[i].1.name[7] == '4' {
      if i == 0 {} else if i == 1 {} else if i == 2 {} else if i == 3 {} else if i == 4 {} else if i == 5 {} else if i == 6 {} else if i == 7 {} else if i == 8 {} else {}
    }
    forall i | 0 < i < |p| ensures p[i - 1].1.name[8] < p[i].1.name[8] {
      if i == 1 {} else if i == 2 {} else if i == 3 {} else if i == 4 {} else if i == 5 {} else if i == 6 {} else if i == 7 {} else if i == 8 {} else {}
    }
  }

  lemma Row5Named()
    ensures NamedRow(Row5, '5')
  {
    var p := Row5;
    // One case per entry.
    forall i | 0 <= i < |p| ensures InstNamed(p[i].1) && p[i].1.name[7] == '5' {
      if i == 0 {} else if i == 1 {} else if i == 2 {} else if i == 3 {} else if i == 4 {} else if i == 5 {} else if i == 6 {} else {}
    }
    forall i | 0 < i < |p| ensures p[i - 1].1.name[8] < p[i].1.name[8] {
      if i == 1 {} else if i == 2 {} else if i == 3 {} else if i == 4 {} else if i == 5 {} else if i == 6 {} else {}
    }
  }

  lemma Row6Named()
    ensures NamedRow(Row6, '6')
  {
    var p := Row6;
    // One case per entry.
    forall i | 0 <= i < |p| ensures InstNamed(p[i].1) && p[i].1.name[7] == '6' {
      if i == 0 {} else if i == 1 {} else if i == 2 {} else if i == 3 {} else if i == 4 {} else if i == 5 {} else if i == 6 {} else if i == 7 {} else if i == 8 {} else {}
    }
    forall i | 0 < i < |p| ensures p[i - 1].1.name[8] < p[i].1.name[8] {
      if i == 1 {} else if i == 2 {} else if i == 3 {} else if i == 4 {} else if i == 5 {} else if i == 6 {} else if i == 7 {} else if i == 8 {} else {}
    }
  }

  lemma Row7Named()
    ensures NamedRow(Row7, '7')
  {
    var p := Row7;
    // One case per entry.
    forall i | 0 <= i < |p| ensures InstNamed(p[i].1) && p[i].1.name[7] == '7' {
      if i == 0 {} else if i == 1 {} else if i == 2 {} else if i == 3 {} else if i == 4 {} else if i == 5 {} else if i == 6 {} else {}
    }
    forall i | 0 < i < |p| ensures p[i - 1].1.name[8] < p[i].1.name[8] {
      if i == 1 {} else if i == 2 {} else if i == 3 {} else if i == 4 {} else if i == 5 {} else if i == 6 {} else {}
    }
  }

  lemma Row8Named()
    ensures NamedRow(Row8, '8')
  {
    var p := Row8;
    // One case per entry.
    forall i | 0 <= i < |p| ensures InstNamed(p[i].1) && p[i].1.name[7] == '8' {
      if i == 0 {} else if i == 1 {} else if i == 2 {} else if i == 3 {} else if i == 4 {} else if i == 5 {} else if i == 6 {} else if i == 7 {} else {}
    }
    forall i | 0 < i < |p| ensures p[i - 1].1.name[8] < p[i].1.name[8] {
      if i == 1 {} else if i == 2 {} else if i == 3 {} else if i == 4 {} else if i == 5 {} else if i == 6 {} else if i == 7 {} else {}
    }
  }

  lemma Row9Named()
    ensures NamedRow(Row9, '9')
  {
    var p := Row9;
    // One case per entry.
    forall i | 0 <= i < |p| ensures InstNamed(p[i].1) && p[i].1.name[7] == '9' {
      if i == 0 {} else if i == 1 {} else if i == 2 {} else if i == 3 {} else if i == 4 {} else if i == 5 {} else if i == 6 {} else if i == 7 {} else {}
    }
    forall i | 0 < i < |p| ensures p[i - 1].1.name[8] < p[i].1.name[8] {
      if i == 1 {} else if i == 2 {} else if i == 3 {} else if i == 4 {} else if i == 5 {} else if i == 6 {} else if i == 7 {} else {}
    }
  }

  lemma RowANamed()
    ensures NamedRow(RowA, 'a')
  {
    var p := RowA;
    // One case per entry.
    forall i | 0 <= i < |p| ensures InstNamed(p[i].1) && p[i].1.name[7] == 'a' {
      if i == 0 {} else if i == 1 {} else if i == 2 {} else if i == 3 {} else if i == 4 {} else if i == 5 {} else if i == 6 {} else if i == 7 {} else if i == 8 {} else if i == 9 {} else if i == 10 {} else {}
    }
    forall i | 0 < i < |p| ensures p[i - 1].1.name[8] < p[i].1.name[8] {
      if i == 1 {} else if i == 2 {} else if i == 3 {} else if i == 4 {} else if i == 5 {} else if i == 6 {} else if i == 7 {} else if i == 8 {} else if i == 9 {} else if i == 10 {} else {}
    }
  }

  lemma RowBNamed()
    ensures NamedRow(RowB, 'b')
  {
    var p := RowB;
    // One case per entry.
    forall i | 0 <= i < |p| ensures InstNamed(p[i].1) && p[i].1.name[7] == 'b' {
      if i == 0 {} else if i == 1 {} else if i == 2 {} else if i == 3 {} else if i == 4 {} else if i == 5 {} else if i == 6 {} else if i == 7 {} else if i == 8 {} else if i == 9 {} else {}
    }
    forall i | 0 < i < |p| ensures p[i - 1].1.name[8] < p[i].1.name[8] {
      if i == 1 {} else if i == 2 {} else if i == 3 {} else if i == 4 {} else if i == 5 {} else if i == 6 {} else if i == 7 {} else if i == 8 {} else if i == 9 {} else {}
    }
  }

  lemma RowCNamed()
    ensures NamedRow(RowC, 'c')
  {
    var p := RowC;
    // One case per entry.
    forall i | 0 <= i < |p| ensures InstNamed(p[i].1) && p[i].1.name[7] == 'c' {
      if i == 0 {} else if i == 1 {} else if i == 2 {} else if i == 3 {} else if i == 4 {} else if i == 5 {} else if i == 6 {} else if i == 7 {} else if i == 8 {} else if i == 9 {} else {}
    }
    forall i | 0 < i < |p| ensures p[i - 1].1.name[8] < p[i].1.name[8] {
      if i == 1 {} else if i == 2 {} else if i == 3 {} else if i == 4 {} else if i == 5 {} else if i == 6 {} else if i == 7 {} else if i == 8 {} else if i == 9 {} else {}
    }
  }

  lemma RowDNamed()
    ensures NamedRow(RowD, 'd')
  {
    var p := RowD;
    // One case per entry.
    forall i | 0 <= i < |p| ensures InstNamed(p[i].1) && p[i].1.name[7] == 'd' {
      if i == 0 {} else if i == 1 {} else if i == 2 {} else if i == 3 {} else if i == 4 {} else if i == 5 {} else if i == 6 {} else {}
    }
    forall i | 0 < i < |p| ensures p[i - 1].1.name[8] < p[i].1.name[8] {
      if i == 1 {} else if i == 2 {} else if i == 3 {} else if i == 4 {} else if i == 5 {} else if i == 6 {} else {}
    }
  }

  lemma RowENamed()
    ensures NamedRow(RowE, 'e')
  {
    var p := RowE;
    // One case per entry.
    forall i | 0 <= i < |p| ensures InstNamed(p[i].1) && p[i].1.name[7] == 'e' {
      if i == 0 {} else if i == 1 {} else if i == 2 {} else if i == 3 {} else if i == 4 {} else if i == 5 {} else if i == 6 {} else if i == 7 {} else if i == 8 {} else if i == 9 {} else {}
    }
    forall i | 0 < i < |p| ensures p[i - 1].1.name[8] < p[i].1.name[8] {
      if i == 1 {} else if i == 2 {} else if i == 3 {} else if i == 4 {} else if i == 5 {} else if i == 6 {} else if i == 7 {} else if i == 8 {} else if i == 9 {} else {}
    }
  }

  lemma RowFNamed()
    ensures NamedRow(RowF, 'f')
  {
    var p := RowF;
    // One case per entry.
    forall i | 0 <= i < |p| ensures InstNamed(p[i].1) && p[i].1.name[7] == 'f' {
      if i == 0 {} else if i == 1 {} else if i == 2 {} else if i == 3 {} else if i == 4 {} else if i == 5 {} else if i == 6 {} else {}
    }
    forall i | 0 < i < |p| ensures p[i - 1].1.name[8] < p[i].1.name[8] {
      if i == 1 {} else if i == 2 {} else if i == 3 {} else if i == 4 {} else if i == 5 {} else if i == 6 {} else {}
    }
  }

  /** The handlers of opcodes $00-$7F spell strictly rising opcodes. */
  lemma RisingLowHalf()
    ensures Rising(Row0 + Row1 + Row2 + Row3 + Row4 + Row5 + Row6 + Row7, 0, 128)
  {
    Row0Named(); Row1Named(); Row2Named(); Row3Named(); Row4Named(); Row5Named(); Row6Named(); Row7Named();
    NamedRowRising(Row0, '0');
    NamedRowRising(Row1, '1');
    NamedRowRising(Row2, '2');
    NamedRowRising(Row3, '3');
    NamedRowRising(Row4, '4');
    NamedRowRising(Row5, '5');
    NamedRowRising(Row6, '6');
    NamedRowRising(Row7, '7');
    RisingConcat(Row0, Row1, 0, 16, 32);
    RisingConcat(Row0 + Row1, Row2, 0, 32, 48);
    RisingConcat(Row0 + Row1 + Row2, Row3, 0, 48, 64);
    RisingConcat(Row0 + Row1 + Row2 + Row3, Row4, 0, 64, 80);
    RisingConcat(Row0 + Row1 + Row2 + Row3 + Row4, Row5, 0, 80, 96);
    RisingConcat(Row0 + Row1 + Row2 + Row3 + Row4 + Row5, Row6, 0, 96, 112);
    RisingConcat(Row0 + Row1 + Row2 + Row3 + Row4 + Row5 + Row6, Row7, 0, 112, 128);
  }

  /** The handler names of the module spell strictly rising opcodes. */
  lemma RegistrationsRising()
    ensures Rising(Registrations, 0, 256)
  {
    Row8Named(); Row9Named(); RowANamed(); RowBNamed(); RowCNamed(); RowDNamed(); RowENamed(); RowFNamed();
    NamedRowRising(Row8, '8');
    NamedRowRising(Row9, '9');
    NamedRowRising(RowA, 'a');
    NamedRowRising(RowB, 'b');
    NamedRowRising(RowC, 'c');
    NamedRowRising(RowD, 'd');
    NamedRowRising(RowE, 'e');
    NamedRowRising(RowF, 'f');
    RisingLowHalf();
    RisingConcat(Row0 + Row1 + Row2 + Row3 + Row4 + Row5 + Row6 + Row7, Row8, 0, 128, 144);
    RisingConcat(Row0 + Row1 + Row2 + Row3 + Row4 + Row5 + Row6 + Row7 + Row8, Row9, 0, 144, 160);
    RisingConcat(Row0 + Row1 + Row2 + Row3 + Row4 + Row5 + Row6 + Row7 + Row8 + Row9, RowA, 0, 160, 176);
    RisingConcat(Row0 + Row1 + Row2 + Row3 + Row4 + Row5 + Row6 + Row7 + Row8 + Row9 + RowA, RowB, 0, 176, 192);
    RisingConcat(Row0 + Row1 + Row2 + Row3 + Row4 + Row5 + Row6 + Row7 + Row8 + Row9 + RowA + RowB, RowC, 0, 192, 208);
    RisingConcat(Row0 + Row1 + Row2 + Row3 + Row4 + Row5 + Row6 + Row7 + Row8 + Row9 + RowA + RowB + RowC, RowD, 0, 208, 224);
    RisingConcat(Row0 + Row1 + Row2 + Row3 + Row4 + Row5 + Row6 + Row7 + Row8 + Row9 + RowA + RowB + RowC + RowD, RowE, 0, 224, 240);
    RisingConcat(Row0 + Row1 + Row2 + Row3 + Row4 + Row5 + Row6 + Row7 + Row8 + Row9 + RowA + RowB + RowC + RowD + RowE, RowF, 0, 240, 256);
  }

  /** A run whose names are all filed by that naming rule, in rising order, can be registered with no slot twice. */
  lemma {:induction false} RisingSlots(regs: seq<(Registration, PyFunction)>)
    requires Rising(regs, 0, 256)
    ensures Addressable(regs, 256) && DistinctSlots(regs, 256)
    ensures forall i :: 0 <= i < |regs| ==> SlotOf(regs[i].1, 256) == Some(NamedOpcode(regs[i].1) as nat)
  {
    forall i | 0 <= i < |regs| ensures SlotOf(regs[i].1, 256) == Some(NamedOpcode(regs[i].1) as nat) {
      InstNamedSlot(regs[i].1);
    }
    if regs != [] {
      var prefix := regs[..|regs| - 1];
      assert Rising(prefix, 0, 256) by {
        forall i | 0 <= i < |prefix| ensures prefix[i] == regs[i] { }
      }
      RisingSlots(prefix);
    }
  }

  /**
   * After a run of handlers named in rising order, each slot of the four
   * lists holds the values of the one registration whose handler name spells
   * it, or its initial values when no handler does.
   */
  lemma RisingTablesAt(regs: seq<(Registration, PyFunction)>, k: nat)
    requires Rising(regs, 0, 256) && k < 256
    ensures Registered(InitialTables, regs).result.Ok? && Sized(Registered(InitialTables, regs).tables, 256)
    ensures forall i :: 0 <= i < |regs| && NamedOpcode(regs[i].1) == k ==>
      EntryAt(Registered(InitialTables, regs).tables, k) == Filing(regs[i])
    ensures (forall i :: 0 <= i < |regs| ==> NamedOpcode(regs[i].1) != k) ==>
      EntryAt(Registered(InitialTables, regs).tables, k) == (NoHandler, ("???", "imp"), 0, 0)
  {
    RisingSlots(regs);
    LastForDistinct(regs, 256, k);
    LastRegistrationWins(InitialTables, regs, 256, k);
  }

  /** The module's own registrations: every slot holds its one registration, or its initial values. */
  lemma ModuleTablesAt(k: nat)
    requires k < 256
    ensures Rising(Registrations, 0, 256)
    ensures Registered(InitialTables, Registrations).result.Ok?
    ensures Sized(Registered(InitialTables, Registrations).tables, 256)
    ensures forall i :: 0 <= i < |Registrations| && NamedOpcode(Registrations[i].1) == k ==>
      EntryAt(Registered(InitialTables, Registrations).tables, k) == Filing(Registrations[i])
    ensures (forall i :: 0 <= i < |Registrations| ==> NamedOpcode(Registrations[i].1) != k) ==>
      EntryAt(Registered(InitialTables, Registrations).tables, k) == (NoHandler, ("???", "imp"), 0, 0)
  {
    RegistrationsRising();
    RisingTablesAt(Registrations, k);
  }
}
