/**
 * The renderers of the reference card: `create_csv` (main matrix, compact
 * matrix, implicit-only table, flat list) and `create_relative_csv` (branch
 * table). Each view is a sequence of CSV lines; the functions below say what
 * the lines are, the two methods build them the way the program does.
 */
module RefcardViews {
  import opened Wrappers
  import opened PyText
  import opened PySorted
  import opened RefcardTables
  import opened RefcardIndex

  /**
   * The two text tables of the modes (`title_modes` and `operands`) know every
   * mode of a column order, and `operands` knows `relative`.
   */
  predicate HasTitles(titleModes: map<string, string>, operands: map<string, string>, order: seq<string>)
  {
    "relative" in operands && Titled(titleModes, operands, order)
  }

  /** Every mode of `order` has a title and an operand text. */
  predicate Titled(titleModes: map<string, string>, operands: map<string, string>, order: seq<string>)
  {
    order == [] ||
      var mode := order[|order| - 1];
      Titled(titleModes, operands, order[..|order| - 1]) && mode in titleModes && mode in operands
  }

  /** A prefix of a titled order is titled, and each of its modes has a title and an operand text. */
  lemma {:induction false} TitledPrefix(titleModes: map<string, string>, operands: map<string, string>, order: seq<string>, j: nat)
    requires Titled(titleModes, operands, order) && j <= |order|
    ensures Titled(titleModes, operands, order[..j])
    ensures j < |order| ==> order[j] in titleModes && order[j] in operands
  {
    if j == |order| {
      assert order[..j] == order;
    } else {
      var prefix := order[..|order| - 1];
      if j == |prefix| {
        assert order[..j] == prefix;
      } else {
        TitledPrefix(titleModes, operands, prefix, j);
        assert prefix[..j] == order[..j] && prefix[j] == order[j];
      }
    }
  }

  /** An order whose every mode has a title and an operand text is titled. */
  lemma {:induction false} TitledOfMembers(titleModes: map<string, string>, operands: map<string, string>, order: seq<string>)
    requires forall mode :: mode in order ==> mode in titleModes && mode in operands
    ensures Titled(titleModes, operands, order)
  {
    if order != [] {
      var prefix := order[..|order| - 1];
      assert forall mode :: mode in prefix ==> mode in order;
      TitledOfMembers(titleModes, operands, prefix);
    }
  }

  /** The 6502 column order has its titles and operand texts. */
  lemma Lookup6502HasTitles()
    ensures HasTitles(TitleModes, Operands, Lookup6502.order)
  {
    Lookup6502Shape();
    TitledOfMembers(TitleModes, Operands, Lookup6502.order);
  }

  /** The status-flag columns of a mnemonic, or the empty ones when it has none. */
  function StatusOf(lookup: CpuLookup, mnemonic: string): string
  {
    if mnemonic in lookup.statusByte then lookup.statusByte[mnemonic] else lookup.statusByteEmpty
  }

  /** `"Opcode,<status header>,"`: the start of every header line. */
  function HeaderStart(lookup: CpuLookup): string
  {
    "Opcode," + lookup.statusByteHeader + ","
  }

  /** The header's group for one column: its quoted title and two empty fields. */
  function TitleGroup(titleModes: map<string, string>, mode: string): string
    requires mode in titleModes
  {
    "\"" + titleModes[mode] + "\",,,"
  }

  function TitleGroups(titleModes: map<string, string>, operands: map<string, string>, order: seq<string>): string
    requires HasTitles(titleModes, operands, order)
  {
    if order == [] then "" else TitleGroups(titleModes, operands, order[..|order| - 1]) + TitleGroup(titleModes, order[|order| - 1])
  }

  /** The label row's group for a mode the mnemonic has: the quoted instruction and two empty fields. */
  function LabelGroup(operands: map<string, string>, mnemonic: string, mode: string): string
    requires mode in operands
  {
    "\"" + mnemonic + " " + operands[mode] + "\",,,"
  }

  /** The label row's groups: the quoted instruction where the mode exists, three empty fields where not. */
  function LabelGroups(titleModes: map<string, string>, operands: map<string, string>, mnemonic: string, modes: map<string, string>, order: seq<string>): string
    requires HasTitles(titleModes, operands, order)
  {
    if order == [] then ""
    else
      var mode := order[|order| - 1];
      LabelGroups(titleModes, operands, mnemonic, modes, order[..|order| - 1])
        + if mode in modes then LabelGroup(operands, mnemonic, mode) else ",,,"
  }

  /** The data row's groups: the cell where the mode exists, three empty fields where not. */
  function DataGroups(modes: map<string, string>, order: seq<string>): string
  {
    if order == [] then ""
    else
      var mode := order[|order| - 1];
      DataGroups(modes, order[..|order| - 1]) + if mode in modes then modes[mode] else ",,,"
  }

  /** The modes of `order` the mnemonic has, in `order` sequence. */
  function PresentModes(modes: map<string, string>, order: seq<string>): (r: seq<string>)
    ensures forall i :: 0 <= i < |r| ==> r[i] in modes
  {
    if order == [] then []
    else
      var mode := order[|order| - 1];
      PresentModes(modes, order[..|order| - 1]) + if mode in modes then [mode] else []
  }

  /** The present modes are the modes of `order` the mnemonic has, and there are no more of them than columns. */
  lemma {:induction false} PresentModesMembers(modes: map<string, string>, order: seq<string>)
    ensures forall mode :: mode in PresentModes(modes, order) <==> mode in order && mode in modes
    ensures |PresentModes(modes, order)| <= |order|
  {
    if order != [] {
      var prefix := order[..|order| - 1];
      PresentModesMembers(modes, prefix);
      assert order == prefix + [order[|order| - 1]];
    }
  }

  /** One line of the flat list: quoted instruction, status columns, cell. */
  function ListRow(operands: map<string, string>, lookup: CpuLookup, mnemonic: string, modes: map<string, string>, mode: string): string
    requires mode in modes && mode in operands
  {
    "\"" + mnemonic + " " + operands[mode] + "\"," + StatusOf(lookup, mnemonic) + "," + modes[mode]
  }

  /** The flat-list lines of the modes of `order` the mnemonic has. */
  function ListRowsInOrder(titleModes: map<string, string>, operands: map<string, string>, lookup: CpuLookup, mnemonic: string, modes: map<string, string>, order: seq<string>): seq<string>
    requires HasTitles(titleModes, operands, order)
  {
    if order == [] then []
    else
      var mode := order[|order| - 1];
      ListRowsInOrder(titleModes, operands, lookup, mnemonic, modes, order[..|order| - 1])
        + if mode in modes then [ListRow(operands, lookup, mnemonic, modes, mode)] else []
  }

  /** `"%s,%s," % (mnemonic, status)`: the start of a mnemonic's label, compact and implicit lines. */
  function RowStart(lookup: CpuLookup, mnemonic: string): string
  {
    mnemonic + "," + StatusOf(lookup, mnemonic) + ","
  }

  /** The start of a data line: the mnemonic and status columns left empty. */
  function DataRowStart(lookup: CpuLookup): string
  {
    "," + lookup.statusByteEmpty + ","
  }

  /** The first line of a main-matrix pair: mnemonic, status columns, label groups. */
  function FirstLine(titleModes: map<string, string>, operands: map<string, string>, lookup: CpuLookup, mnemonic: string, modes: map<string, string>, order: seq<string>): string
    requires HasTitles(titleModes, operands, order)
  {
    RowStart(lookup, mnemonic) + LabelGroups(titleModes, operands, mnemonic, modes, order)
  }

  /** The second line of a main-matrix pair: empty mnemonic and status columns, data groups. */
  function SecondLine(lookup: CpuLookup, modes: map<string, string>, order: seq<string>): string
  {
    DataRowStart(lookup) + DataGroups(modes, order)
  }

  /** The line of the compact matrix, and also of the implicit-only table. */
  function CompactLine(lookup: CpuLookup, mnemonic: string, modes: map<string, string>, order: seq<string>): string
  {
    RowStart(lookup, mnemonic) + DataGroups(modes, order)
  }

  /** The cells of the modes of `order` the mnemonic has, with nothing for the others. */
  function PresentCells(modes: map<string, string>, order: seq<string>): string
  {
    if order == [] then ""
    else
      var mode := order[|order| - 1];
      PresentCells(modes, order[..|order| - 1]) + if mode in modes then modes[mode] else ""
  }

  /** The line of the implicit-only table: no empty groups for absent modes. */
  function ImplicitLine(lookup: CpuLookup, mnemonic: string, modes: map<string, string>, order: seq<string>): string
  {
    RowStart(lookup, mnemonic) + PresentCells(modes, order)
  }

  /** Which of the three matrix-style views a mnemonic goes to. */
  datatype Route = NoMatrix | ImplicitOnly | Matrix

  /**
   * No mode of `order` present: none of them; only one mode present and
   * `implicit` among the present: the implicit-only table; otherwise both
   * matrices.
   */
  function RouteOf(modes: map<string, string>, order: seq<string>): Route
  {
    var found := |PresentModes(modes, order)|;
    if found == 0 then NoMatrix
    else if "implicit" in order && "implicit" in modes && found == 1 then ImplicitOnly
    else Matrix
  }

  /** The four views `create_csv` prints. */
  datatype Csv = Csv(main: seq<string>, compact: seq<string>, implicit: seq<string>, list: seq<string>)
  {
    function Append(other: Csv): Csv
    {
      Csv(main + other.main, compact + other.compact, implicit + other.implicit, list + other.list)
    }
  }

  lemma AppendAssociates(a: Csv, b: Csv, c: Csv)
    ensures a.Append(b).Append(c) == a.Append(b.Append(c))
  {
  }

  /**
   * The lines one mnemonic contributes to each view, from the pieces its
   * column slots grow: no line in the matrix views when it has no mode of
   * the order, the implicit-only table when its one mode is `implicit`, both
   * matrices otherwise; a flat-list line per present mode and one for
   * `relative`. `RowsOfMeaning` states the lines outright.
   */
  function RowsOf(titleModes: map<string, string>, operands: map<string, string>, lookup: CpuLookup, order: seq<string>, mnemonic: string, modes: map<string, string>): Csv
    requires HasTitles(titleModes, operands, order)
  {
    var l := Scan(titleModes, operands, lookup, mnemonic, modes, order);
    var route := if l.found == 0 then NoMatrix else if l.foundImplicit && l.found == 1 then ImplicitOnly else Matrix;
    Csv(
      if route == Matrix then [l.first, l.second] else [],
      if route == Matrix then [l.compact] else [],
      if route == ImplicitOnly then [l.implicit] else [],
      l.list + if "relative" in modes then [ListRow(operands, lookup, mnemonic, modes, "relative")] else [])
  }

  /** The lines of the mnemonics `keys` of `d`, in that sequence (a key `d` lacks has none). */
  function Body(titleModes: map<string, string>, operands: map<string, string>, lookup: CpuLookup, order: seq<string>, d: Index, keys: seq<string>): Csv
    requires HasTitles(titleModes, operands, order)
  {
    if keys == [] then Csv([], [], [], [])
    else
      var m := keys[|keys| - 1];
      var before := Body(titleModes, operands, lookup, order, d, keys[..|keys| - 1]);
      if m in d then before.Append(RowsOf(titleModes, operands, lookup, order, m, d[m])) else before
  }

  /** The header lines: main and compact share one; the flat list has none. */
  function Headers(titleModes: map<string, string>, operands: map<string, string>, lookup: CpuLookup): Csv
    requires HasTitles(titleModes, operands, lookup.order)
  {
    var header := HeaderStart(lookup) + TitleGroups(titleModes, operands, lookup.order);
    Csv([header], [header], [HeaderStart(lookup) + "Hex,C,B"], [])
  }

  /** What `create_csv` prints, view by view. */
  ghost function CsvViews(titleModes: map<string, string>, operands: map<string, string>, lookup: CpuLookup, order: seq<string>, d: Index): Csv
    requires HasTitles(titleModes, operands, lookup.order) && HasTitles(titleModes, operands, order)
  {
    Headers(titleModes, operands, lookup).Append(Body(titleModes, operands, lookup, order, d, SortedSeq(d.Keys)))
  }

  /** The views after the header lines and the mnemonics `keys`, one mnemonic at a time. */
  function Rendered(titleModes: map<string, string>, operands: map<string, string>, lookup: CpuLookup, order: seq<string>, d: Index, keys: seq<string>): Csv
    requires HasTitles(titleModes, operands, lookup.order) && HasTitles(titleModes, operands, order)
  {
    if keys == [] then Headers(titleModes, operands, lookup)
    else
      var m := keys[|keys| - 1];
      var before := Rendered(titleModes, operands, lookup, order, d, keys[..|keys| - 1]);
      if m in d then before.Append(RowsOf(titleModes, operands, lookup, order, m, d[m])) else before
  }

  /** Rendering mnemonic by mnemonic gives the header lines followed by the body. */
  lemma {:induction false} RenderedIsHeadersBody(titleModes: map<string, string>, operands: map<string, string>, lookup: CpuLookup, order: seq<string>, d: Index, keys: seq<string>)
    requires HasTitles(titleModes, operands, lookup.order) && HasTitles(titleModes, operands, order)
    ensures Rendered(titleModes, operands, lookup, order, d, keys) == Headers(titleModes, operands, lookup).Append(Body(titleModes, operands, lookup, order, d, keys))
  {
    if keys != [] {
      var prefix, m := keys[..|keys| - 1], keys[|keys| - 1];
      RenderedIsHeadersBody(titleModes, operands, lookup, order, d, prefix);
      if m in d {
        AppendAssociates(Headers(titleModes, operands, lookup), Body(titleModes, operands, lookup, order, d, prefix),
                         RowsOf(titleModes, operands, lookup, order, m, d[m]));
      }
    } else {
      assert Headers(titleModes, operands, lookup).Append(Csv([], [], [], [])) == Headers(titleModes, operands, lookup);
    }
  }

  /**
   * `create_csv`: the header lines, then the lines of each mnemonic in sorted
   * order. The four lists it appends to are the four fields of `views`.
   */
  method CreateCsv(titleModes: map<string, string>, operands: map<string, string>, d: Index, lookup: CpuLookup, order: seq<string>)
    returns (main: seq<string>, compact: seq<string>, implicit: seq<string>, list: seq<string>)
    requires HasTitles(titleModes, operands, lookup.order) && HasTitles(titleModes, operands, order)
    ensures Csv(main, compact, implicit, list) == CsvViews(titleModes, operands, lookup, order, d)
  {
    var views := HeaderViews(titleModes, operands, lookup);
    var keys := Sorted(d.Keys);
    for i := 0 to |keys|
      invariant views == Rendered(titleModes, operands, lookup, order, d, keys[..i])
    {
      assert keys[..i + 1][..i] == keys[..i];
      assert keys[i] in d by {
        SortedSeqMembers(d.Keys);
      }
      var rows := RenderMnemonic(titleModes, operands, lookup, order, keys[i], d[keys[i]]);
      views := views.Append(rows);
    }
    assert keys[..|keys|] == keys;
    RenderedIsHeadersBody(titleModes, operands, lookup, order, d, keys);
    main, compact, implicit, list := views.main, views.compact, views.implicit, views.list;
  }

  /** The start of `create_csv`: the implicit table's header, then the two matrix headers grown one column title at a time. */
  method HeaderViews(titleModes: map<string, string>, operands: map<string, string>, lookup: CpuLookup) returns (views: Csv)
    requires HasTitles(titleModes, operands, lookup.order)
    ensures views == Headers(titleModes, operands, lookup)
  {
    var header := HeaderStart(lookup);
    var implicit := [header + "Hex,C,B"];
    var mainHeader := HeaderStart(lookup);
    var compactHeader := HeaderStart(lookup);
    for j := 0 to |lookup.order|
      invariant HasTitles(titleModes, operands, lookup.order[..j])
      invariant mainHeader == compactHeader == HeaderStart(lookup) + TitleGroups(titleModes, operands, lookup.order[..j])
    {
      TitledPrefix(titleModes, operands, lookup.order, j);
      TitledPrefix(titleModes, operands, lookup.order, j + 1);
      assert lookup.order[..j + 1][..j] == lookup.order[..j];
      var title := "\"" + titleModes[lookup.order[j]] + "\",,,";
      mainHeader := mainHeader + title;
      compactHeader := compactHeader + title;
    }
    assert lookup.order[..|lookup.order|] == lookup.order;
    views := Csv([mainHeader], [compactHeader], implicit, []);
  }

  /** The pieces the loop over the column order grows for one mnemonic. */
  datatype Lines = Lines(first: string, second: string, implicit: string, compact: string, list: seq<string>, found: nat, foundImplicit: bool)

  /** What one column slot adds to the pieces. */
  function SlotStep(operands: map<string, string>, lookup: CpuLookup, mnemonic: string, modes: map<string, string>, acc: Lines, mode: string): Lines
    requires mode in operands
  {
    if mode in modes then
      Lines(acc.first + LabelGroup(operands, mnemonic, mode), acc.second + modes[mode], acc.implicit + modes[mode],
            acc.compact + modes[mode], acc.list + [ListRow(operands, lookup, mnemonic, modes, mode)],
            acc.found + 1, acc.foundImplicit || mode == "implicit")
    else
      Lines(acc.first + ",,,", acc.second + ",,,", acc.implicit, acc.compact + ",,,", acc.list, acc.found, acc.foundImplicit)
  }

  /** The pieces after the slots of `order`, one slot at a time. */
  function Scan(titleModes: map<string, string>, operands: map<string, string>, lookup: CpuLookup, mnemonic: string, modes: map<string, string>, order: seq<string>): Lines
    requires HasTitles(titleModes, operands, order)
  {
    if order == [] then
      Lines(RowStart(lookup, mnemonic), DataRowStart(lookup), RowStart(lookup, mnemonic), RowStart(lookup, mnemonic), [], 0, false)
    else
      SlotStep(operands, lookup, mnemonic, modes, Scan(titleModes, operands, lookup, mnemonic, modes, order[..|order| - 1]), order[|order| - 1])
  }

  /** Growing the pieces slot by slot yields the lines, the list rows, the mode count and the implicit flag. */
  lemma {:induction false} ScanMeaning(titleModes: map<string, string>, operands: map<string, string>, lookup: CpuLookup, mnemonic: string, modes: map<string, string>, order: seq<string>)
    requires HasTitles(titleModes, operands, order)
    ensures Scan(titleModes, operands, lookup, mnemonic, modes, order)
      == Lines(FirstLine(titleModes, operands, lookup, mnemonic, modes, order), SecondLine(lookup, modes, order),
               ImplicitLine(lookup, mnemonic, modes, order), CompactLine(lookup, mnemonic, modes, order),
               ListRowsInOrder(titleModes, operands, lookup, mnemonic, modes, order),
               |PresentModes(modes, order)|, "implicit" in order && "implicit" in modes)
  {
    if order != [] {
      var prefix, mode := order[..|order| - 1], order[|order| - 1];
      assert order == prefix + [mode];
      ScanMeaning(titleModes, operands, lookup, mnemonic, modes, prefix);
      var start := RowStart(lookup, mnemonic);
      if mode in modes {
        ConcatAssociates(start, LabelGroups(titleModes, operands, mnemonic, modes, prefix), LabelGroup(operands, mnemonic, mode));
        ConcatAssociates(DataRowStart(lookup), DataGroups(modes, prefix), modes[mode]);
        ConcatAssociates(start, PresentCells(modes, prefix), modes[mode]);
        ConcatAssociates(start, DataGroups(modes, prefix), modes[mode]);
      } else {
        ConcatAssociates(start, LabelGroups(titleModes, operands, mnemonic, modes, prefix), ",,,");
        ConcatAssociates(DataRowStart(lookup), DataGroups(modes, prefix), ",,,");
        assert PresentCells(modes, order) == PresentCells(modes, prefix) + "";
        ConcatAssociates(start, DataGroups(modes, prefix), ",,,");
      }
    }
  }

  /**
   * A mnemonic's lines, stated outright: the label and data lines of the main
   * matrix and the compact line when `RouteOf` picks the matrices, the
   * implicit line when it picks the implicit-only table, and the flat-list
   * lines of its modes in column order followed by its relative mode.
   */
  lemma RowsOfMeaning(titleModes: map<string, string>, operands: map<string, string>, lookup: CpuLookup, order: seq<string>, mnemonic: string, modes: map<string, string>)
    requires HasTitles(titleModes, operands, order)
    ensures var route := RouteOf(modes, order);
      RowsOf(titleModes, operands, lookup, order, mnemonic, modes) == Csv(
        if route == Matrix then [FirstLine(titleModes, operands, lookup, mnemonic, modes, order), SecondLine(lookup, modes, order)] else [],
        if route == Matrix then [CompactLine(lookup, mnemonic, modes, order)] else [],
        if route == ImplicitOnly then [ImplicitLine(lookup, mnemonic, modes, order)] else [],
        ListRowsInOrder(titleModes, operands, lookup, mnemonic, modes, order)
          + if "relative" in modes then [ListRow(operands, lookup, mnemonic, modes, "relative")] else [])
  {
    ScanMeaning(titleModes, operands, lookup, mnemonic, modes, order);
  }

  /**
   * The body of the loop over mnemonics in `create_csv`: builds the label,
   * data, implicit and compact lines mode by mode while counting the modes
   * found, adds flat-list lines on the way, and finally routes the lines to
   * the views.
   */
  method RenderMnemonic(titleModes: map<string, string>, operands: map<string, string>, lookup: CpuLookup, order: seq<string>, mnemonic: string, modeInfo: map<string, string>)
    returns (rows: Csv)
    requires HasTitles(titleModes, operands, order)
    ensures rows == RowsOf(titleModes, operands, lookup, order, mnemonic, modeInfo)
  {
    var status := if mnemonic in lookup.statusByte then lookup.statusByte[mnemonic] else lookup.statusByteEmpty;
    var firstLine := mnemonic + "," + status + ",";
    var implicitLine := firstLine;
    var secondLine := "," + lookup.statusByteEmpty + ",";
    var compactLine := firstLine;
    var list := [];
    var foundMode: nat := 0;
    var foundImplicit := false;
    for j := 0 to |order|
      invariant HasTitles(titleModes, operands, order[..j])
      invariant Lines(firstLine, secondLine, implicitLine, compactLine, list, foundMode, foundImplicit)
        == Scan(titleModes, operands, lookup, mnemonic, modeInfo, order[..j])
    {
      TitledPrefix(titleModes, operands, order, j);
      TitledPrefix(titleModes, operands, order, j + 1);
      assert order[..j + 1][..j] == order[..j];
      var modeName := order[j];
      if modeName in modeInfo {
        var cell := modeInfo[modeName];
        firstLine := firstLine + ("\"" + mnemonic + " " + operands[modeName] + "\",,,");
        secondLine := secondLine + cell;
        implicitLine := implicitLine + cell;
        compactLine := compactLine + cell;
        list := list + ["\"" + mnemonic + " " + operands[modeName] + "\"," + status + "," + cell];
        foundMode := foundMode + 1;
        if modeName == "implicit" {
          foundImplicit := true;
        }
      } else {
        firstLine := firstLine + ",,,";
        secondLine := secondLine + ",,,";
        compactLine := compactLine + ",,,";
      }
    }
    assert order[..|order|] == order;
    if "relative" in modeInfo {
      list := list + ["\"" + mnemonic + " " + operands["relative"] + "\"," + status + "," + modeInfo["relative"]];
    }
    rows := Csv([], [], [], list);
    if foundMode != 0 {
      if foundImplicit && foundMode == 1 {
        rows := rows.(implicit := [implicitLine]);
      } else {
        rows := rows.(main := [firstLine, secondLine], compact := [compactLine]);
      }
    }
  }

  // ---------------------------------------------------------------------------
  // The branch table

  const RelativeHeader: string := "Opcode,Hex,,N,T,P"

  /**
   * The branch-table line of a mnemonic: the text of its relative cell before
   * the first comma, then three constant columns; `None` when the cell has no
   * comma (the unpacking of `split(",", 1)` raises).
   */
  function RelativeRow(mnemonic: string, cell: string): Option<string>
  {
    match SplitFirst(cell, ',')
    case None => None
    case Some((opcode, _)) => Some(mnemonic + "," + opcode + ",,2,3,4")
  }

  /**
   * The branch table after the mnemonics `keys`: the header, then a line for
   * each of them that has a relative cell; the first cell without a comma
   * fails the table.
   */
  function RelativeLines(d: Index, keys: seq<string>): Result<seq<string>, Error>
    requires forall k :: k in keys ==> k in d
  {
    if keys == [] then Ok([RelativeHeader])
    else
      var m := keys[|keys| - 1];
      match RelativeLines(d, keys[..|keys| - 1])
      case Err(e) => Err(e)
      case Ok(lines) =>
        if "relative" !in d[m] then Ok(lines)
        else match RelativeRow(m, d[m]["relative"])
          case None => Err(MissingComma(m))
          case Some(row) => Ok(lines + [row])
  }

  /** Once a prefix of the mnemonics fails, the whole table fails the same way. */
  lemma {:induction false} RelativeErrorPropagates(d: Index, keys: seq<string>, i: nat)
    requires i <= |keys| && forall k :: k in keys ==> k in d
    requires RelativeLines(d, keys[..i]).Err?
    ensures RelativeLines(d, keys) == RelativeLines(d, keys[..i])
    decreases |keys| - i
  {
    if i < |keys| {
      var k := keys[..i + 1];
      assert k[..i] == keys[..i];
      RelativeErrorPropagates(d, keys, i + 1);
    } else {
      assert keys[..i] == keys;
    }
  }

  /** What `create_relative_csv` prints. */
  ghost function RelativeView(d: Index): Result<seq<string>, Error>
  {
    SortedSeqMembers(d.Keys);
    RelativeLines(d, SortedSeq(d.Keys))
  }

  /** `create_relative_csv`. */
  method CreateRelativeCsv(d: Index) returns (r: Result<seq<string>, Error>)
    ensures r == RelativeView(d)
  {
    var lines := [RelativeHeader];
    var keys := Sorted(d.Keys);
    assert forall k :: k in keys ==> k in d by {
      SortedSeqMembers(d.Keys);
    }
    for i := 0 to |keys|
      invariant RelativeLines(d, keys[..i]) == Ok(lines)
    {
      assert keys[..i + 1][..i] == keys[..i];
      var mnemonic := keys[i];
      var modeInfo := d[mnemonic];
      if "relative" in modeInfo {
        var split := SplitFirst(modeInfo["relative"], ',');
        if split.None? {
          RelativeErrorPropagates(d, keys, i + 1);
          return Err(MissingComma(mnemonic));
        }
        var opcode := split.value.0;
        lines := lines + [mnemonic + "," + opcode + ",,2,3,4"];
      }
    }
    assert keys[..|keys|] == keys;
    return Ok(lines);
  }
}
