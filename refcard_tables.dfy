/**
 * The static data of the reference-card generator: the per-CPU address-mode
 * table (mode aliasing, column order, cycle tables, status-flag columns), the
 * column titles and the operand syntax of each addressing mode.
 */
module RefcardTables {
  import opened Wrappers
  import opened PyText

  /** The flag bit that marks an undocumented opcode. */
  const FlagUndoc: nat := 128

  /** One entry of `address_mode_order`. */
  datatype CpuLookup = CpuLookup(
    modeMap: map<string, string>,
    order: seq<string>,
    cycles: seq<nat>,
    extraCycles: seq<nat>,
    statusByteHeader: string,
    statusByteEmpty: string,
    statusByte: map<string, string>)

  /** The cycle tables can be indexed by any opcode. */
  predicate WellFormed(lookup: CpuLookup)
  {
    |lookup.cycles| == 256 && |lookup.extraCycles| == 256
  }

  /** Base cycle count of each 6502 opcode; 0 marks an opcode with no instruction. */
  const Cycles6502: seq<nat> := [
      7, 6, 0, 0, 0, 3, 5, 0, 3, 2, 2, 0, 0, 4, 6, 0,
      2, 5, 0, 0, 0, 4, 6, 0, 2, 4, 0, 0, 0, 4, 7, 0,
      6, 6, 0, 0, 3, 3, 5, 0, 4, 2, 2, 0, 4, 4, 6, 0,
      2, 5, 0, 0, 0, 4, 6, 0, 2, 4, 0, 0, 0, 4, 7, 0,
      6, 6, 0, 0, 0, 3, 5, 0, 3, 2, 2, 0, 3, 4, 6, 0,
      2, 5, 0, 0, 0, 4, 6, 0, 2, 4, 0, 0, 0, 4, 7, 0,
      6, 6, 0, 0, 0, 3, 5, 0, 4, 2, 2, 0, 5, 4, 6, 0,
      2, 5, 0, 0, 0, 4, 6, 0, 2, 4, 0, 0, 0, 4, 7, 0,
      0, 6, 0, 0, 3, 3, 3, 0, 2, 0, 2, 0, 4, 4, 4, 0,
      2, 6, 0, 0, 4, 4, 4, 0, 2, 5, 2, 0, 0, 5, 0, 0,
      2, 6, 2, 0, 3, 3, 3, 0, 2, 2, 2, 0, 4, 4, 4, 0,
      2, 5, 0, 0, 4, 4, 4, 0, 2, 4, 2, 0, 4, 4, 4, 0,
      2, 6, 0, 0, 3, 3, 5, 0, 2, 2, 2, 0, 4, 4, 3, 0,
      2, 5, 0, 0, 0, 4, 6, 0, 2, 4, 0, 0, 0, 4, 7, 0,
      2, 6, 0, 0, 3, 3, 5, 0, 2, 2, 2, 0, 4, 4, 6, 0,
      2, 5, 0, 0, 0, 4, 6, 0, 2, 4, 0, 0, 0, 4, 7, 0]

  /** Extra cycles of each 6502 opcode (page crossing, branch taken). */
  const ExtraCycles6502: seq<nat> := [
      0, 0, 0, 0, 0, 0, 0, 0, 0, 0, 0, 0, 0, 0, 0, 0,
      2, 1, 0, 0, 0, 0, 0, 0, 0, 1, 0, 0, 0, 1, 0, 0,
      0, 0, 0, 0, 0, 0, 0, 0, 0, 0, 0, 0, 0, 0, 0, 0,
      2, 1, 0, 0, 0, 0, 0, 0, 0, 1, 0, 0, 0, 1, 0, 0,
      0, 0, 0, 0, 0, 0, 0, 0, 0, 0, 0, 0, 0, 0, 0, 0,
      2, 1, 0, 0, 0, 0, 0, 0, 0, 1, 0, 0, 0, 1, 0, 0,
      0, 0, 0, 0, 0, 0, 0, 0, 0, 0, 0, 0, 0, 0, 0, 0,
      2, 1, 0, 0, 0, 0, 0, 0, 0, 1, 0, 0, 0, 1, 0, 0,
      0, 0, 0, 0, 0, 0, 0, 0, 0, 0, 0, 0, 0, 0, 0, 0,
      2, 0, 0, 0, 0, 0, 0, 0, 0, 0, 0, 0, 0, 0, 0, 0,
      0, 0, 0, 0, 0, 0, 0, 0, 0, 0, 0, 0, 0, 0, 0, 0,
      2, 1, 0, 0, 0, 0, 0, 0, 0, 1, 0, 0, 1, 1, 1, 0,
      0, 0, 0, 0, 0, 0, 0, 0, 0, 0, 0, 0, 0, 0, 0, 0,
      2, 1, 0, 0, 0, 0, 0, 0, 0, 1, 0, 0, 0, 1, 0, 0,
      0, 0, 0, 0, 0, 0, 0, 0, 0, 0, 0, 0, 0, 0, 0, 0,
      2, 1, 0, 0, 0, 0, 0, 0, 0, 1, 0, 0, 0, 1, 0, 0]

  /** A Python dict display: the pairs in turn, a repeated key keeping its last value. */
  function DictOf(pairs: seq<(string, string)>): map<string, string>
  {
    if pairs == [] then map[]
    else DictOf(pairs[..|pairs| - 1])[pairs[|pairs| - 1].0 := pairs[|pairs| - 1].1]
  }

  // The status-flag effects (N,V,-,B,D,I,Z,C) of each documented mnemonic, in
  // the order the dict display lists them, twelve entries at a time.

  /** `status_byte`, refcard.py:54-65. */
  const StatusRows1: seq<(string, string)> := [
    ("ADC", "N,V, , , , ,Z,C"),
    ("AND", "N, , , , , ,Z, "),
    ("ASL", "N, , , , , ,Z,C"),
    ("BIT", "N,V, , , , ,Z, "),
    ("BRK", " , , ,1, ,1, , "),
    ("CLC", " , , , , , , ,0"),
    ("CLD", " , , , ,0, , , "),
    ("CLI", " , , , , ,0, , "),
    ("CLV", " ,0, , , , , , "),
    ("CMP", "N, , , , , ,Z,C"),
    ("CPX", "N, , , , , ,Z,C"),
    ("CPY", "N, , , , , ,Z,C")]

  /** `status_byte`, refcard.py:66-77. */
  const StatusRows2: seq<(string, string)> := [
    ("DEC", "N, , , , , ,Z, "),
    ("DEX", "N, , , , , ,Z, "),
    ("DEY", "N, , , , , ,Z, "),
    ("EOR", "N, , , , , ,Z, "),
    ("INC", "N, , , , , ,Z, "),
    ("INX", "N, , , , , ,Z, "),
    ("INY", "N, , , , , ,Z, "),
    ("JMP", " , , , , , , , "),
    ("JSR", " , , , , , , , "),
    ("LDA", "N, , , , , ,Z, "),
    ("LDX", "N, , , , , ,Z, "),
    ("LDY", "N, , , , , ,Z, ")]

  /** `status_byte`, refcard.py:78-89. */
  const StatusRows3: seq<(string, string)> := [
    ("LSR", "N, , , , , ,Z,C"),
    ("NOP", " , , , , , , , "),
    ("ORA", "N, , , , , ,Z, "),
    ("PHA", " , , , , , , , "),
    ("PHP", " , , , , , , , "),
    ("PLA", "N, , , , , ,Z, "),
    ("PLP", "N,V, , ,D,I,Z,C"),
    ("ROL", "N, , , , , ,Z,C"),
    ("ROR", "N, , , , , ,Z,C"),
    ("RTI", "N,V, , ,D,I,Z,C"),
    ("RTS", " , , , , , , , "),
    ("SBC", "N,V, , , , ,Z,C")]

  /** `status_byte`, refcard.py:90-101. */
  const StatusRows4: seq<(string, string)> := [
    ("SEC", " , , , , , , ,1"),
    ("SED", " , , , ,1, , , "),
    ("SEI", " , , , , ,1, , "),
    ("STA", " , , , , , , , "),
    ("STX", " , , , , , , , "),
    ("STY", " , , , , , , , "),
    ("TAX", "N, , , , , ,Z, "),
    ("TAY", "N, , , , , ,Z, "),
    ("TSX", "N, , , , , ,Z, "),
    ("TXA", "N, , , , , ,Z, "),
    ("TXS", " , , , , , , , "),
    ("TYA", "N, , , , , ,Z, ")]

  const StatusByte6502: map<string, string> :=
    DictOf(StatusRows1 + StatusRows2 + StatusRows3 + StatusRows4)

  const Lookup6502: CpuLookup := CpuLookup(
    modeMap := map["accumulator" := "implicit"],
    order := ["implicit", "immediate", "zeropage", "zeropagex", "zeropagey",
              "absolute", "absolutex", "absolutey", "indirect", "indirectx", "indirecty"],
    cycles := Cycles6502,
    extraCycles := ExtraCycles6502,
    statusByteHeader := "N,V,-,B,D,I,Z,C",
    statusByteEmpty := ",,,,,,,",
    statusByte := StatusByte6502)

  /** `address_mode_order[cpu_name]`; `None` stands for the KeyError of an unknown CPU. */
  function AddressModeOrder(cpuName: string): (r: Option<CpuLookup>)
    ensures r.Some? <==> cpuName == "6502"
    ensures r.Some? ==> WellFormed(r.value)
  {
    if cpuName == "6502" then Some(Lookup6502) else None
  }

  /** `title_modes`: the column title of each addressing mode. */
  const TitleModes: map<string, string> := map[
    "implicit" := "implicit",
    "immediate" := "#nn",
    "zeropage" := "$nn",
    "zeropagex" := "$nn,X",
    "zeropagey" := "$nn,Y",
    "absolute" := "$nnnn",
    "absolutex" := "$nnnn,X",
    "absolutey" := "$nnnn,Y",
    "indirect" := "($nnnn)",
    "indirectx" := "($nn,X)",
    "indirecty" := "($nn),Y",
    "relative" := ""]

  /** `operands`: the operand syntax, the same as the title except that implicit has none. */
  const Operands: map<string, string> := TitleModes["implicit" := ""]


  /**
   * Every mode of the 6502 column order has a title and an operand text, and
   * `relative` is not one of the columns; accumulator is shown as implicit.
   */
  lemma Lookup6502Shape()
    ensures WellFormed(Lookup6502)
    ensures forall m :: m in Lookup6502.order ==> m in TitleModes && m in Operands
    ensures "relative" !in Lookup6502.order && "relative" in Operands
    ensures "implicit" in Lookup6502.order
    ensures Lookup6502.modeMap == map["accumulator" := "implicit"]
  {
    var order := Lookup6502.order;
    assert forall i :: 0 <= i < |order| ==> order[i] in TitleModes && order[i] in Operands;
    assert order[0] == "implicit";
  }

  /**
   * Eight one-character flag columns separated by commas, the shape of every
   * status row: a comma at each odd position, neither a comma nor a quote at
   * each even one.
   */
  predicate FlagRow(s: string)
  {
    |s| == 15
    && s[1] == ',' && s[3] == ',' && s[5] == ',' && s[7] == ',' && s[9] == ',' && s[11] == ',' && s[13] == ','
    && s[0] != ',' && s[2] != ',' && s[4] != ',' && s[6] != ',' && s[8] != ',' && s[10] != ',' && s[12] != ',' && s[14] != ','
    && s[0] != '"' && s[2] != '"' && s[4] != '"' && s[6] != '"' && s[8] != '"' && s[10] != '"' && s[12] != '"' && s[14] != '"'
  }

  /** Every value of a dict display is a status row. */
  predicate FlagRows(pairs: seq<(string, string)>)
  {
    forall i :: 0 <= i < |pairs| ==> FlagRow(pairs[i].1)
  }

  /** From the flag column at `j` on, a status row holds one comma per remaining column and no quote. */
  lemma {:induction false} FlagRowSuffix(s: string, j: nat)
    requires FlagRow(s) && j <= 14 && j % 2 == 0
    ensures Occurrences(s[j..], ',') == (14 - j) / 2 && '"' !in s[j..]
    decreases 14 - j
  {
    if j < 14 {
      FlagRowSuffix(s, j + 2);
      assert s[j..] == [s[j], s[j + 1]] + s[j + 2..];
      assert multiset(s[j..]) == multiset([s[j], s[j + 1]]) + multiset(s[j + 2..]);
    } else {
      assert s[j..] == [s[14]];
    }
  }

  /** A status row has seven commas and no quote. */
  lemma FlagRowCommas(s: string)
    requires FlagRow(s)
    ensures Occurrences(s, ',') == 7 && '"' !in s
  {
    FlagRowSuffix(s, 0);
    assert s[0..] == s;
  }

  /** Every value of the dict a display of status rows builds is a status row. */
  lemma {:induction false} DictOfFlagRows(pairs: seq<(string, string)>)
    requires FlagRows(pairs)
    ensures forall k :: k in DictOf(pairs) ==> FlagRow(DictOf(pairs)[k])
  {
    if pairs != [] {
      var prefix := pairs[..|pairs| - 1];
      assert FlagRows(prefix) by {
        forall i | 0 <= i < |prefix| ensures FlagRow(prefix[i].1) {
          assert prefix[i] == pairs[i];
        }
      }
      DictOfFlagRows(prefix);
    }
  }

  /** Two displays of status rows put together are one. */
  lemma FlagRowsConcat(a: seq<(string, string)>, b: seq<(string, string)>)
    requires FlagRows(a) && FlagRows(b)
    ensures FlagRows(a + b)
  {
    forall i | 0 <= i < |a + b| ensures FlagRow((a + b)[i].1) {
      if i < |a| {
        assert (a + b)[i] == a[i];
      } else {
        assert (a + b)[i] == b[i - |a|];
      }
    }
  }

  // Each entry of the status table, checked twelve at a time.

  lemma StatusRows1Shape()
    ensures FlagRows(StatusRows1)
  {
    var p := StatusRows1;
    assert FlagRow(p[0].1);
    assert FlagRow(p[1].1);
    assert FlagRow(p[2].1);
    assert FlagRow(p[3].1);
    assert FlagRow(p[4].1);
    assert FlagRow(p[5].1);
    assert FlagRow(p[6].1);
    assert FlagRow(p[7].1);
    assert FlagRow(p[8].1);
    assert FlagRow(p[9].1);
    assert FlagRow(p[10].1);
    assert FlagRow(p[11].1);
  }

  lemma StatusRows2Shape()
    ensures FlagRows(StatusRows2)
  {
    var p := StatusRows2;
    assert FlagRow(p[0].1);
    assert FlagRow(p[1].1);
    assert FlagRow(p[2].1);
    assert FlagRow(p[3].1);
    assert FlagRow(p[4].1);
    assert FlagRow(p[5].1);
    assert FlagRow(p[6].1);
    assert FlagRow(p[7].1);
    assert FlagRow(p[8].1);
    assert FlagRow(p[9].1);
    assert FlagRow(p[10].1);
    assert FlagRow(p[11].1);
  }

  lemma StatusRows3Shape()
    ensures FlagRows(StatusRows3)
  {
    var p := StatusRows3;
    assert FlagRow(p[0].1);
    assert FlagRow(p[1].1);
    assert FlagRow(p[2].1);
    assert FlagRow(p[3].1);
    assert FlagRow(p[4].1);
    assert FlagRow(p[5].1);
    assert FlagRow(p[6].1);
    assert FlagRow(p[7].1);
    assert FlagRow(p[8].1);
    assert FlagRow(p[9].1);
    assert FlagRow(p[10].1);
    assert FlagRow(p[11].1);
  }

  lemma StatusRows4Shape()
    ensures FlagRows(StatusRows4)
  {
    var p := StatusRows4;
    assert FlagRow(p[0].1);
    assert FlagRow(p[1].1);
    assert FlagRow(p[2].1);
    assert FlagRow(p[3].1);
    assert FlagRow(p[4].1);
    assert FlagRow(p[5].1);
    assert FlagRow(p[6].1);
    assert FlagRow(p[7].1);
    assert FlagRow(p[8].1);
    assert FlagRow(p[9].1);
    assert FlagRow(p[10].1);
    assert FlagRow(p[11].1);
  }

  /** The 6502's status header and every status row are eight flag columns. */
  lemma StatusRows6502Shape()
    ensures FlagRow(Lookup6502.statusByteHeader)
    ensures forall k :: k in StatusByte6502 ==> FlagRow(StatusByte6502[k])
  {
    StatusRows1Shape();
    StatusRows2Shape();
    StatusRows3Shape();
    StatusRows4Shape();
    FlagRowsConcat(StatusRows1, StatusRows2);
    FlagRowsConcat(StatusRows1 + StatusRows2, StatusRows3);
    FlagRowsConcat(StatusRows1 + StatusRows2 + StatusRows3, StatusRows4);
    var rows := StatusRows1 + StatusRows2 + StatusRows3 + StatusRows4;
    DictOfFlagRows(rows);
  }
}
