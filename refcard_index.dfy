/**
 * The index builder of `gen_csv`: it walks the opcode table and files one
 * preformatted cell per (upper-cased mnemonic, aliased addressing mode).
 */
module RefcardIndex {
  import opened Wrappers
  import opened PyText
  import opened CsvText
  import opened RefcardTables

  /**
   * One value of the opcode table: a tuple of three fields, of four fields
   * (the last being the flag), or of any other length.
   */
  datatype RawEntry =
    | Fields3(numBytes: int, mnemonic: string, modeName: string)
    | Fields4(numBytes: int, mnemonic: string, modeName: string, flag: int)
    | OtherArity(arity: nat)

  /** The opcode table in iteration order: (opcode, entry) pairs. */
  type OpcodeTable = seq<(Byte, RawEntry)>

  /** The names bound by unpacking an entry. */
  datatype Unpacked = Unpacked(numBytes: int, mnemonic: string, modeName: string, flag: int)

  /** Why a run produces no output. */
  datatype Error =
    | UnknownCpu(cpuName: string)
    | MalformedEntry(opcode: Byte, arity: nat)
    | MissingComma(mnemonic: string)

  /** mnemonic -> mode name -> cell text (the `defaultdict(dict)` of `gen_csv`). */
  type Index = map<string, map<string, string>>

  /**
   * Unpacks an entry into four names, retrying with three and flag 0; any
   * other length fails the second unpacking.
   */
  function Unpack(e: RawEntry): (r: Option<Unpacked>)
    ensures r.Some? <==> !e.OtherArity?
    ensures e.Fields4? ==> r == Some(Unpacked(e.numBytes, e.mnemonic, e.modeName, e.flag))
    ensures e.Fields3? ==> r == Some(Unpacked(e.numBytes, e.mnemonic, e.modeName, 0))
  {
    match e
    case Fields4(n, m, mode, flag) => Some(Unpacked(n, m, mode, flag))
    case Fields3(n, m, mode) => Some(Unpacked(n, m, mode, 0))
    case OtherArity(_) => None
  }

  /** `flag & flag_undoc` is non-zero, i.e. bit 7 of the flag is set (floor division, as in Python). */
  predicate Undocumented(flag: int)
  {
    (flag / FlagUndoc) % 2 == 1
  }

  /**
   * For any integer flag, `Undocumented` is exactly the bitwise test against
   * 128 of its low byte (Python's `&` on a negative integer reads it in two's
   * complement, whose low byte is the flag modulo 256).
   */
  lemma UndocumentedIsBit7(flag: int)
    ensures Undocumented(flag) <==> ((flag % 256) as bv8) & 128 != 0
  {
    var q, r := flag / 256, flag % 256;
    var h, l := r / 128, r % 128;
    assert flag == 128 * (2 * q + h) + l;
    assert flag / 128 == 2 * q + h;
    if r < 128 {
      assert (r as bv8) < 128;
    } else {
      assert (r as bv8) >= 128;
    }
  }

  /** `allow_undocumented or not flag & flag_undoc`. */
  predicate Admitted(allow: bool, flag: int)
  {
    allow || !Undocumented(flag)
  }

  /** `lookup['map'].get(mode_name, mode_name)`. */
  function MapMode(lookup: CpuLookup, modeName: string): string
  {
    if modeName in lookup.modeMap then lookup.modeMap[modeName] else modeName
  }

  /** On the 6502 entry, `accumulator` is shown as `implicit` and every other mode keeps its name. */
  lemma MapModeOf6502(modeName: string)
    ensures MapMode(Lookup6502, modeName) == if modeName == "accumulator" then "implicit" else modeName
  {
    assert Lookup6502.modeMap == map["accumulator" := "implicit"];
  }

  /**
   * `"%02x,%d%s,%d,"`: the opcode in two hex digits, the cycle count with a
   * `+` when there are extra cycles, the byte count, each followed by a comma.
   */
  function CellText(opcode: Byte, cycles: nat, extra: nat, numBytes: int): string
  {
    Hex2(opcode) + "," + IntToDecimal(cycles) + (if extra > 0 then "+" else "") + "," + IntToDecimal(numBytes) + ","
  }

  /**
   * Three comma-terminated fields free of commas and quotes hold exactly three
   * commas and no quote, the first comma right after the first field.
   */
  lemma FieldsShape(h: string, c: string, p: string, n: string)
    requires ',' !in h && ',' !in c && ',' !in p && ',' !in n
    requires '"' !in h && '"' !in c && '"' !in p && '"' !in n
    ensures var s := h + "," + c + p + "," + n + ",";
      Occurrences(s, ',') == 3 && '"' !in s && |s| > |h| && s[..|h|] == h && s[|h|] == ','
  {
    var s := h + "," + c + p + "," + n + ",";
    assert multiset(s) == multiset(h) + multiset(",") + multiset(c) + multiset(p) + multiset(",") + multiset(n) + multiset(",");
    assert multiset(h)[','] == 0 && multiset(c)[','] == 0 && multiset(p)[','] == 0 && multiset(n)[','] == 0;
    assert s == h + ("," + c + p + "," + n + ",");
  }

  /** A cell has exactly three commas and no quote, and starts with the opcode's two hex digits and a comma. */
  lemma CellTextShape(opcode: Byte, cycles: nat, extra: nat, numBytes: int)
    ensures Occurrences(CellText(opcode, cycles, extra, numBytes), ',') == 3
    ensures '"' !in CellText(opcode, cycles, extra, numBytes)
    ensures var s := CellText(opcode, cycles, extra, numBytes); |s| > 3 && s[..2] == Hex2(opcode) && s[2] == ','
  {
    var h := Hex2(opcode);
    assert h == [h[0], h[1]];
    FieldsShape(h, IntToDecimal(cycles), if extra > 0 then "+" else "", IntToDecimal(numBytes));
  }

  /** What a cell records about one opcode. */
  datatype CellFields = CellFields(opcode: Byte, cycles: nat, hasExtra: bool, numBytes: int)

  /**
   * Reads a cell back: three comma-terminated fields holding the opcode in two
   * hex digits, the cycle count with an optional `+`, and the byte count.
   */
  function ParseCell(s: string): Option<CellFields>
  {
    match SplitFirst(s, ',')
    case None => None
    case Some((hex, rest)) =>
      match SplitFirst(rest, ',')
      case None => None
      case Some((cyc, rest')) =>
        match SplitFirst(rest', ',')
        case None => None
        case Some((num, tail)) => ReadFields(hex, cyc, num, tail)
  }

  /** The three fields of a cell, and what follows its last comma, read as what they record. */
  function ReadFields(hex: string, cyc: string, num: string, tail: string): Option<CellFields>
  {
    var hasExtra := |cyc| > 0 && cyc[|cyc| - 1] == '+';
    var digits := if hasExtra then cyc[..|cyc| - 1] else cyc;
    if tail != [] || |hex| != 2 || !AllHexDigits(hex) || HexValue(hex) >= 256 then None
    else match (ParseDecimal(digits), ParseDecimal(num))
      case (Some(c), Some(n)) => if c < 0 then None else Some(CellFields(HexValue(hex), c, hasExtra, n))
      case _ => None
  }

  /**
   * Every cell reads back as the opcode, cycle count and byte count it was
   * made from, with the `+` marker present exactly when the extra-cycle count
   * is positive.
   */
  lemma CellRoundTrip(opcode: Byte, cycles: nat, extra: nat, numBytes: int)
    ensures ParseCell(CellText(opcode, cycles, extra, numBytes)) == Some(CellFields(opcode, cycles, extra > 0, numBytes))
  {
    var h := Hex2(opcode);
    assert ',' !in h by {
      assert forall i :: 0 <= i < |h| ==> h[i] != ',';
    }
    FieldsRoundTrip(h, IntToDecimal(cycles), if extra > 0 then "+" else "", IntToDecimal(numBytes), opcode, cycles, numBytes);
  }

  /** Three comma-terminated fields read back as the hex byte, the count with its `+` flag, and the second count. */
  lemma FieldsRoundTrip(h: string, c: string, p: string, n: string, opcode: Byte, cycles: nat, numBytes: int)
    requires |h| == 2 && AllHexDigits(h) && HexValue(h) == opcode && ',' !in h
    requires ',' !in c && '+' !in c && ',' !in n && (p == "+" || p == "")
    requires ParseDecimal(c) == Some(cycles) && ParseDecimal(n) == Some(numBytes)
    ensures ParseCell(h + "," + c + p + "," + n + ",") == Some(CellFields(opcode, cycles, p == "+", numBytes))
  {
    var x := c + p;
    assert h + "," + c + p + "," + n + "," == h + "," + x + "," + n + ",";
    assert ',' !in x;
    CellSplits(h, x, n);
    ReadFieldsOf(h, c, p, n, opcode, cycles, numBytes);
  }

  /** A cell of three comma-free fields splits into exactly those fields and nothing after. */
  lemma CellSplits(h: string, x: string, n: string)
    requires ',' !in h && ',' !in x && ',' !in n
    ensures ParseCell(h + "," + x + "," + n + ",") == ReadFields(h, x, n, [])
  {
    var rest' := n + [','];
    var rest := x + [','] + rest';
    assert h + "," + x + "," + n + "," == h + [','] + rest;
    SplitFirstOfJoin(h, rest, ',');
    SplitFirstOfJoin(x, rest', ',');
    assert rest' == n + [','] + [];
    SplitFirstOfJoin(n, [], ',');
  }

  /** The count field with an optional `+` reads back as the count and the flag. */
  lemma ReadFieldsOf(h: string, c: string, p: string, n: string, opcode: Byte, cycles: nat, numBytes: int)
    requires |h| == 2 && AllHexDigits(h) && HexValue(h) == opcode
    requires '+' !in c && (p == "+" || p == "")
    requires ParseDecimal(c) == Some(cycles) && ParseDecimal(n) == Some(numBytes)
    ensures ReadFields(h, c + p, n, []) == Some(CellFields(opcode, cycles, p == "+", numBytes))
  {
    var cyc := c + p;
    if p == "+" {
      assert cyc[..|cyc| - 1] == c;
    } else {
      assert cyc == c;
      assert |c| > 0 ==> c[|c| - 1] in c;
    }
  }

  /** The cell `gen_csv` files for `opcode` under `lookup`. */
  function CellFor(lookup: CpuLookup, opcode: Byte, numBytes: int): string
    requires WellFormed(lookup)
  {
    CellText(opcode, lookup.cycles[opcode], lookup.extraCycles[opcode], numBytes)
  }

  /** `d[key][mode] = cell`, creating the inner dictionary on first use. */
  function Insert(d: Index, key: string, mode: string, cell: string): Index
  {
    d[key := (if key in d then d[key] else map[])[mode := cell]]
  }

  /** One pass of the loop body for `(opcode, e)`. */
  function Step(lookup: CpuLookup, allow: bool, d: Index, opcode: Byte, e: RawEntry): Result<Index, Error>
    requires WellFormed(lookup)
  {
    match Unpack(e)
    case None => Err(MalformedEntry(opcode, e.arity))
    case Some(u) =>
      if Admitted(allow, u.flag)
      then Ok(Insert(d, Upper(u.mnemonic), MapMode(lookup, u.modeName), CellFor(lookup, opcode, u.numBytes)))
      else Ok(d)
  }

  /** The loop of `gen_csv` over the rest of the table, starting from the index built so far. */
  function BuildFrom(lookup: CpuLookup, allow: bool, d: Index, table: OpcodeTable): Result<Index, Error>
    requires WellFormed(lookup)
    decreases |table|
  {
    if table == [] then Ok(d)
    else match Step(lookup, allow, d, table[0].0, table[0].1)
      case Err(e) => Err(e)
      case Ok(d') => BuildFrom(lookup, allow, d', table[1..])
  }

  /** The whole index, or the first malformed entry. */
  function BuildIndex(lookup: CpuLookup, allow: bool, table: OpcodeTable): Result<Index, Error>
    requires WellFormed(lookup)
  {
    BuildFrom(lookup, allow, map[], table)
  }

  /** The index-building loop of `gen_csv`. */
  method GenIndex(lookup: CpuLookup, table: OpcodeTable, allowUndocumented: bool) returns (r: Result<Index, Error>)
    requires WellFormed(lookup)
    ensures r == BuildIndex(lookup, allowUndocumented, table)
  {
    var d: Index := map[];
    var i := 0;
    while i < |table|
      invariant 0 <= i <= |table|
      invariant BuildFrom(lookup, allowUndocumented, d, table[i..]) == BuildIndex(lookup, allowUndocumented, table)
    {
      var (opcode, optable) := table[i];
      var numBytes, mnemonic, modeName, flag;
      match optable {
        case Fields4(n, m, mode, f) =>
          numBytes, mnemonic, modeName, flag := n, m, mode, f;
        case Fields3(n, m, mode) =>
          numBytes, mnemonic, modeName, flag := n, m, mode, 0;
        case OtherArity(k) =>
          return Err(MalformedEntry(opcode, k));
      }
      if allowUndocumented || !Undocumented(flag) {
        modeName := if modeName in lookup.modeMap then lookup.modeMap[modeName] else modeName;
        var key := Upper(mnemonic);
        var modes := if key in d then d[key] else map[];
        d := d[key := modes[modeName := CellText(opcode, lookup.cycles[opcode], lookup.extraCycles[opcode], numBytes)]];
      }
      assert table[i..][1..] == table[i + 1..];
      i := i + 1;
    }
    return Ok(d);
  }

  // ---------------------------------------------------------------------------
  // What the built index holds

  /** The cell at `d[key][mode]`, if any. */
  function Get(d: Index, key: string, mode: string): Option<string>
  {
    if key in d && mode in d[key] then Some(d[key][mode]) else None
  }

  /** Entry `e` is admitted and writes the slot `(key, mode)`. */
  predicate Writes(lookup: CpuLookup, allow: bool, e: RawEntry, key: string, mode: string)
  {
    match Unpack(e)
    case None => false
    case Some(u) => Admitted(allow, u.flag) && Upper(u.mnemonic) == key && MapMode(lookup, u.modeName) == mode
  }

  /** The cell of the last entry of `table` that writes `(key, mode)`. */
  function LastWrite(lookup: CpuLookup, allow: bool, table: OpcodeTable, key: string, mode: string): Option<string>
    requires WellFormed(lookup)
    decreases |table|
  {
    if table == [] then None
    else match LastWrite(lookup, allow, table[1..], key, mode)
      case Some(c) => Some(c)
      case None =>
        if Writes(lookup, allow, table[0].1, key, mode)
        then Some(CellFor(lookup, table[0].0, Unpack(table[0].1).value.numBytes))
        else None
  }

  /**
   * `LastWrite` is what its name says: nothing when no entry writes the slot,
   * otherwise the cell of an entry that writes it and that no later entry
   * overwrites.
   */
  lemma {:induction false} LastWriteIsLast(lookup: CpuLookup, allow: bool, table: OpcodeTable, key: string, mode: string)
    requires WellFormed(lookup)
    ensures LastWrite(lookup, allow, table, key, mode).None? <==>
      forall i :: 0 <= i < |table| ==> !Writes(lookup, allow, table[i].1, key, mode)
    ensures LastWrite(lookup, allow, table, key, mode).Some? ==>
      exists i :: 0 <= i < |table| && Writes(lookup, allow, table[i].1, key, mode)
        && LastWrite(lookup, allow, table, key, mode).value == CellFor(lookup, table[i].0, Unpack(table[i].1).value.numBytes)
        && forall j :: i < j < |table| ==> !Writes(lookup, allow, table[j].1, key, mode)
    decreases |table|
  {
    if table != [] {
      var rest := table[1..];
      LastWriteIsLast(lookup, allow, rest, key, mode);
      assert forall i :: 1 <= i < |table| ==> table[i] == rest[i - 1];
      match LastWrite(lookup, allow, rest, key, mode)
      case Some(c) =>
        var i :| 0 <= i < |rest| && Writes(lookup, allow, rest[i].1, key, mode)
          && c == CellFor(lookup, rest[i].0, Unpack(rest[i].1).value.numBytes)
          && forall j :: i < j < |rest| ==> !Writes(lookup, allow, rest[j].1, key, mode);
        assert Writes(lookup, allow, table[i + 1].1, key, mode);
      case None =>
        if Writes(lookup, allow, table[0].1, key, mode) {
          assert forall j :: 0 < j < |table| ==> !Writes(lookup, allow, table[j].1, key, mode);
        }
    }
  }

  /** Building from `d` over `table` leaves each slot at its last write in `table`, else as in `d`. */
  lemma {:induction false} BuildFromIsLastWrite(lookup: CpuLookup, allow: bool, d: Index, table: OpcodeTable, d': Index, key: string, mode: string)
    requires WellFormed(lookup)
    requires BuildFrom(lookup, allow, d, table) == Ok(d')
    ensures Get(d', key, mode) == match LastWrite(lookup, allow, table, key, mode)
      case Some(c) => Some(c)
      case None => Get(d, key, mode)
    decreases |table|
  {
    if table != [] {
      var d1 := Step(lookup, allow, d, table[0].0, table[0].1).value;
      BuildFromIsLastWrite(lookup, allow, d1, table[1..], d', key, mode);
    }
  }

  /**
   * The built index holds, at every (mnemonic, mode) slot, the cell of the
   * last admitted entry for that slot, and holds nothing where no admitted
   * entry wrote.
   */
  lemma BuildIndexIsLastWrite(lookup: CpuLookup, allow: bool, table: OpcodeTable, d: Index)
    requires WellFormed(lookup)
    requires BuildIndex(lookup, allow, table) == Ok(d)
    ensures forall key, mode :: Get(d, key, mode) == LastWrite(lookup, allow, table, key, mode)
  {
    forall key, mode
      ensures Get(d, key, mode) == LastWrite(lookup, allow, table, key, mode)
    {
      BuildFromIsLastWrite(lookup, allow, map[], table, d, key, mode);
    }
  }

  /** The build fails exactly when some entry has neither three nor four fields, and names the first. */
  lemma {:induction false} BuildFromFailsOnlyOnMalformed(lookup: CpuLookup, allow: bool, d: Index, table: OpcodeTable)
    requires WellFormed(lookup)
    ensures BuildFrom(lookup, allow, d, table).Ok? <==> forall i :: 0 <= i < |table| ==> !table[i].1.OtherArity?
    ensures BuildFrom(lookup, allow, d, table).Err? ==>
      exists i :: 0 <= i < |table| && table[i].1.OtherArity?
        && (forall j :: 0 <= j < i ==> !table[j].1.OtherArity?)
        && BuildFrom(lookup, allow, d, table).error == MalformedEntry(table[i].0, table[i].1.arity)
    decreases |table|
  {
    if table != [] {
      match Step(lookup, allow, d, table[0].0, table[0].1)
      case Err(_) =>
      case Ok(d1) =>
        var rest := table[1..];
        BuildFromFailsOnlyOnMalformed(lookup, allow, d1, rest);
        assert forall i :: 1 <= i < |table| ==> table[i] == rest[i - 1];
        if BuildFrom(lookup, allow, d, table).Err? {
          var i :| 0 <= i < |rest| && rest[i].1.OtherArity?
            && (forall j :: 0 <= j < i ==> !rest[j].1.OtherArity?)
            && BuildFrom(lookup, allow, d1, rest).error == MalformedEntry(rest[i].0, rest[i].1.arity);
          assert table[i + 1] == rest[i];
        }
    }
  }

  /** The table without the entries the undocumented-opcode policy skips (malformed entries stay). */
  function Unskipped(allow: bool, table: OpcodeTable): (r: OpcodeTable)
    ensures |r| <= |table|
  {
    if table == [] then []
    else
      var keep := match Unpack(table[0].1) case None => true case Some(u) => Admitted(allow, u.flag);
      (if keep then [table[0]] else []) + Unskipped(allow, table[1..])
  }

  /** A skipped entry leaves the index as it was: dropping all of them changes nothing. */
  lemma {:induction false} SkippedEntriesLeaveIndex(lookup: CpuLookup, allow: bool, d: Index, table: OpcodeTable)
    requires WellFormed(lookup)
    ensures BuildFrom(lookup, allow, d, Unskipped(allow, table)) == BuildFrom(lookup, allow, d, table)
    decreases |table|
  {
    if table != [] {
      var r := Unskipped(allow, table);
      var rest := table[1..];
      match Step(lookup, allow, d, table[0].0, table[0].1)
      case Err(_) =>
        assert r[0] == table[0];
      case Ok(d1) =>
        SkippedEntriesLeaveIndex(lookup, allow, d1, rest);
        if r != [] && r[0] == table[0] && r[1..] == Unskipped(allow, rest) {
        } else {
          assert r == Unskipped(allow, rest);
        }
    }
  }

  /** Every key is upper-case with at least one mode, and every cell has exactly three commas and no quote. */
  predicate ValidIndex(d: Index)
  {
    forall key :: key in d ==>
      IsUpperCase(key) && d[key] != map[] && forall mode :: mode in d[key] ==> Plain(d[key][mode], 3)
  }

  lemma InsertKeepsValid(d: Index, key: string, mode: string, cell: string)
    requires ValidIndex(d) && IsUpperCase(key) && Plain(cell, 3)
    ensures ValidIndex(Insert(d, key, mode, cell))
  {
    var d1 := Insert(d, key, mode, cell);
    forall k | k in d1
      ensures IsUpperCase(k) && d1[k] != map[]
      ensures forall m :: m in d1[k] ==> Plain(d1[k][m], 3)
    {
      if k == key {
        assert mode in d1[k];
      } else {
        assert d1[k] == d[k];
      }
    }
  }

  lemma StepKeepsValid(lookup: CpuLookup, allow: bool, d: Index, opcode: Byte, e: RawEntry)
    requires WellFormed(lookup) && ValidIndex(d)
    ensures Step(lookup, allow, d, opcode, e).Ok? ==> ValidIndex(Step(lookup, allow, d, opcode, e).value)
  {
    if !e.OtherArity? {
      var u := Unpack(e).value;
      if Admitted(allow, u.flag) {
        CellTextShape(opcode, lookup.cycles[opcode], lookup.extraCycles[opcode], u.numBytes);
        UpperIsCanonical(u.mnemonic);
        InsertKeepsValid(d, Upper(u.mnemonic), MapMode(lookup, u.modeName), CellFor(lookup, opcode, u.numBytes));
      }
    }
  }

  lemma {:induction false} BuildFromKeepsValid(lookup: CpuLookup, allow: bool, d: Index, table: OpcodeTable)
    requires WellFormed(lookup) && ValidIndex(d)
    ensures BuildFrom(lookup, allow, d, table).Ok? ==> ValidIndex(BuildFrom(lookup, allow, d, table).value)
    decreases |table|
  {
    if table != [] {
      StepKeepsValid(lookup, allow, d, table[0].0, table[0].1);
      match Step(lookup, allow, d, table[0].0, table[0].1)
      case Err(_) =>
      case Ok(d1) =>
        BuildFromKeepsValid(lookup, allow, d1, table[1..]);
    }
  }

  /** The index `gen_csv` builds is valid: what the renderers rely on. */
  lemma BuiltIndexIsValid(lookup: CpuLookup, allow: bool, table: OpcodeTable)
    requires WellFormed(lookup)
    ensures BuildIndex(lookup, allow, table).Ok? ==> ValidIndex(BuildIndex(lookup, allow, table).value)
  {
    BuildFromKeepsValid(lookup, allow, map[], table);
  }
}
