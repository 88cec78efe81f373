/**
 * What the views of the reference card say about the index: which view a
 * mnemonic lands in, what its lines hold, how many fields they have, and that
 * the branch table cannot
 * fail on an index whose cells all have their three commas.
 */
module RefcardViewFacts {
  import opened Wrappers
  import opened PyText
  import opened CsvText
  import opened PySorted
  import opened RefcardTables
  import opened RefcardIndex
  import opened RefcardViews

  // ---------------------------------------------------------------------------
  // Routing one mnemonic

  /**
   * A mnemonic has no line in the three matrix views exactly when it has no
   * mode of the column order (a branch, which only has `relative`); it goes
   * to the implicit-only table exactly when `implicit` is the only mode of
   * the order it has.
   */
  lemma RouteMeaning(modes: map<string, string>, order: seq<string>)
    ensures RouteOf(modes, order) == NoMatrix <==> forall mode :: mode in order ==> mode !in modes
    ensures RouteOf(modes, order) == ImplicitOnly <==> PresentModes(modes, order) == ["implicit"]
  {
    PresentModesMembers(modes, order);
    var present := PresentModes(modes, order);
    if |present| > 0 {
      assert present[0] in present;
    }
    if |present| == 1 && "implicit" in present {
      assert present == ["implicit"];
    }
  }

  /**
   * A branch, whose only mode is `relative`, has no line in any of the three
   * matrix views of the 6502 card: `relative` is not a column.
   */
  lemma BranchOnlyInNoMatrix(cell: string)
    ensures RouteOf(map["relative" := cell], Lookup6502.order) == NoMatrix
  {
    Lookup6502Shape();
    RouteMeaning(map["relative" := cell], Lookup6502.order);
  }

  /** The cells of the modes `ms`, one after the other. */
  function Joined(modes: map<string, string>, ms: seq<string>): string
    requires forall i :: 0 <= i < |ms| ==> ms[i] in modes
  {
    if ms == [] then "" else Joined(modes, ms[..|ms| - 1]) + modes[ms[|ms| - 1]]
  }

  /** The implicit line is the cells of the present modes, in column order. */
  lemma {:induction false} PresentCellsJoinPresentModes(modes: map<string, string>, order: seq<string>)
    ensures PresentCells(modes, order) == Joined(modes, PresentModes(modes, order))
  {
    if order != [] {
      var prefix, mode := order[..|order| - 1], order[|order| - 1];
      PresentCellsJoinPresentModes(modes, prefix);
      var before := PresentModes(modes, prefix);
      if mode in modes {
        assert (before + [mode])[..|before|] == before;
      } else {
        assert PresentModes(modes, order) == before + [] == before;
        assert PresentCells(modes, order) == PresentCells(modes, prefix) + "" == PresentCells(modes, prefix);
        assert Joined(modes, PresentModes(modes, order)) == Joined(modes, before);
      }
    }
  }

  /** The one line of the implicit-only table: mnemonic, status columns, the implicit cell. */
  lemma ImplicitOnlyLine(lookup: CpuLookup, mnemonic: string, modes: map<string, string>, order: seq<string>)
    requires RouteOf(modes, order) == ImplicitOnly
    ensures "implicit" in modes
    ensures ImplicitLine(lookup, mnemonic, modes, order) == RowStart(lookup, mnemonic) + modes["implicit"]
  {
    RouteMeaning(modes, order);
    PresentCellsJoinPresentModes(modes, order);
    assert ["implicit"][..0] == [];
  }

  /** Each column contributes exactly three commas to a data line when every cell has three. */
  lemma {:induction false} DataGroupsCommas(modes: map<string, string>, order: seq<string>)
    requires forall mode :: mode in modes ==> Occurrences(modes[mode], ',') == 3
    ensures Occurrences(DataGroups(modes, order), ',') == 3 * |order|
  {
    if order != [] {
      DataGroupsCommas(modes, order[..|order| - 1]);
    }
  }

  /** The flat-list lines of a mnemonic are one per present mode, in column order. */
  lemma {:induction false} ListRowsFollowPresentModes(titleModes: map<string, string>, operands: map<string, string>, lookup: CpuLookup,
                                                       mnemonic: string, modes: map<string, string>, order: seq<string>)
    requires HasTitles(titleModes, operands, order)
    ensures var rows, present := ListRowsInOrder(titleModes, operands, lookup, mnemonic, modes, order), PresentModes(modes, order);
      && |rows| == |present|
      && forall i :: 0 <= i < |present| ==> present[i] in operands && rows[i] == ListRow(operands, lookup, mnemonic, modes, present[i])
  {
    if order != [] {
      ListRowsFollowPresentModes(titleModes, operands, lookup, mnemonic, modes, order[..|order| - 1]);
    }
  }

  // ---------------------------------------------------------------------------
  // The matrix views over all mnemonics

  /** The mnemonics of `keys` that `route` sends to a view, in `keys` order. */
  function Routed(d: Index, order: seq<string>, keys: seq<string>, route: Route): (r: seq<string>)
    requires forall k :: k in keys ==> k in d
    ensures forall k :: k in r ==> k in keys
  {
    if keys == [] then []
    else
      var m := keys[|keys| - 1];
      Routed(d, order, keys[..|keys| - 1], route) + if RouteOf(d[m], order) == route then [m] else []
  }

  /** Every mnemonic routed to a view is one `RouteOf` sends there. */
  lemma {:induction false} RoutedRoute(d: Index, order: seq<string>, keys: seq<string>, route: Route)
    requires forall k :: k in keys ==> k in d
    ensures forall k :: k in Routed(d, order, keys, route) ==> RouteOf(d[k], order) == route
  {
    if keys != [] {
      RoutedRoute(d, order, keys[..|keys| - 1], route);
    }
  }

  /** The main matrix holds a label line and a data line for each mnemonic routed to it, and nothing else. */
  lemma {:induction false} BodyMain(titleModes: map<string, string>, operands: map<string, string>, lookup: CpuLookup,
                                    order: seq<string>, d: Index, keys: seq<string>)
    requires HasTitles(titleModes, operands, order) && forall k :: k in keys ==> k in d
    ensures var main, ms := Body(titleModes, operands, lookup, order, d, keys).main, Routed(d, order, keys, Matrix);
      && |main| == 2 * |ms|
      && forall i :: 0 <= i < |ms| ==>
           main[2 * i] == FirstLine(titleModes, operands, lookup, ms[i], d[ms[i]], order)
           && main[2 * i + 1] == SecondLine(lookup, d[ms[i]], order)
  {
    if keys != [] {
      BodyMain(titleModes, operands, lookup, order, d, keys[..|keys| - 1]);
      var m := keys[|keys| - 1];
      RowsOfMeaning(titleModes, operands, lookup, order, m, d[m]);
    }
  }

  /** The compact matrix holds one line for each mnemonic routed to the matrices. */
  lemma {:induction false} BodyCompact(titleModes: map<string, string>, operands: map<string, string>, lookup: CpuLookup,
                                       order: seq<string>, d: Index, keys: seq<string>)
    requires HasTitles(titleModes, operands, order) && forall k :: k in keys ==> k in d
    ensures var compact, ms := Body(titleModes, operands, lookup, order, d, keys).compact, Routed(d, order, keys, Matrix);
      && |compact| == |ms|
      && forall i :: 0 <= i < |ms| ==> compact[i] == CompactLine(lookup, ms[i], d[ms[i]], order)
  {
    if keys != [] {
      BodyCompact(titleModes, operands, lookup, order, d, keys[..|keys| - 1]);
      var m := keys[|keys| - 1];
      RowsOfMeaning(titleModes, operands, lookup, order, m, d[m]);
    }
  }

  /** The implicit-only table holds one line for each mnemonic routed to it. */
  lemma {:induction false} BodyImplicit(titleModes: map<string, string>, operands: map<string, string>, lookup: CpuLookup,
                                        order: seq<string>, d: Index, keys: seq<string>)
    requires HasTitles(titleModes, operands, order) && forall k :: k in keys ==> k in d
    ensures var implicit, ms := Body(titleModes, operands, lookup, order, d, keys).implicit, Routed(d, order, keys, ImplicitOnly);
      && |implicit| == |ms|
      && forall i :: 0 <= i < |ms| ==> implicit[i] == ImplicitLine(lookup, ms[i], d[ms[i]], order)
  {
    if keys != [] {
      BodyImplicit(titleModes, operands, lookup, order, d, keys[..|keys| - 1]);
      var m := keys[|keys| - 1];
      RowsOfMeaning(titleModes, operands, lookup, order, m, d[m]);
    }
  }

  /** A mnemonic's flat-list lines: one per present column mode, in column order, then its branch line. */
  function MnemonicList(titleModes: map<string, string>, operands: map<string, string>, lookup: CpuLookup,
                        order: seq<string>, mnemonic: string, modes: map<string, string>): seq<string>
    requires HasTitles(titleModes, operands, order)
  {
    ListRowsInOrder(titleModes, operands, lookup, mnemonic, modes, order)
      + if "relative" in modes then [ListRow(operands, lookup, mnemonic, modes, "relative")] else []
  }

  /** The flat-list lines of the mnemonics of `keys` that `d` has, whatever view their other lines go to. */
  function ListLines(titleModes: map<string, string>, operands: map<string, string>, lookup: CpuLookup,
                     order: seq<string>, d: Index, keys: seq<string>): seq<string>
    requires HasTitles(titleModes, operands, order)
  {
    if keys == [] then []
    else
      var m := keys[|keys| - 1];
      ListLines(titleModes, operands, lookup, order, d, keys[..|keys| - 1])
        + if m in d then MnemonicList(titleModes, operands, lookup, order, m, d[m]) else []
  }

  /** The flat list gets every mnemonic's list lines, in `keys` order, routed or not. */
  lemma {:induction false} BodyList(titleModes: map<string, string>, operands: map<string, string>, lookup: CpuLookup,
                                    order: seq<string>, d: Index, keys: seq<string>)
    requires HasTitles(titleModes, operands, order)
    ensures Body(titleModes, operands, lookup, order, d, keys).list == ListLines(titleModes, operands, lookup, order, d, keys)
  {
    if keys != [] {
      BodyList(titleModes, operands, lookup, order, d, keys[..|keys| - 1]);
      var m := keys[|keys| - 1];
      if m in d {
        RowsOfMeaning(titleModes, operands, lookup, order, m, d[m]);
      }
    }
  }

  /** The flat list `create_csv` prints has no header: it is the list lines of the sorted mnemonics. */
  lemma CsvViewsList(titleModes: map<string, string>, operands: map<string, string>, lookup: CpuLookup, order: seq<string>, d: Index)
    requires HasTitles(titleModes, operands, lookup.order) && HasTitles(titleModes, operands, order)
    ensures CsvViews(titleModes, operands, lookup, order, d).list == ListLines(titleModes, operands, lookup, order, d, SortedSeq(d.Keys))
  {
    BodyList(titleModes, operands, lookup, order, d, SortedSeq(d.Keys));
  }

  // ---------------------------------------------------------------------------
  // Field counts of the matrix lines

  /** No text of a table holds a quote. */
  predicate Quoteless(m: map<string, string>)
  {
    forall k :: k in m ==> '"' !in m[k]
  }

  /** The status header, the empty status columns and every status row are `n` commas without quotes. */
  predicate StatusColumns(lookup: CpuLookup, n: nat)
  {
    && Plain(lookup.statusByteHeader, n)
    && Plain(lookup.statusByteEmpty, n)
    && forall m :: m in lookup.statusByte ==> Plain(lookup.statusByte[m], n)
  }

  /** No mnemonic of the index holds a comma or a quote. */
  predicate PlainKeys(d: Index)
  {
    forall key :: key in d ==> Plain(key, 0)
  }

  /** The starts of the header and of the label, data and compact lines are `n + 2` commas without quotes. */
  lemma LineStarts(lookup: CpuLookup, mnemonic: string, n: nat)
    requires StatusColumns(lookup, n) && Plain(mnemonic, 0)
    ensures Plain(HeaderStart(lookup), n + 2)
    ensures Plain(RowStart(lookup, mnemonic), n + 2)
    ensures Plain(DataRowStart(lookup), n + 2)
  {
    OpcodeText();
    assert Plain(",", 1);
    PlainConcat("Opcode,", lookup.statusByteHeader, 1, n);
    PlainConcat("Opcode," + lookup.statusByteHeader, ",", n + 1, 1);
    PlainConcat(mnemonic, ",", 0, 1);
    PlainConcat(mnemonic + ",", StatusOf(lookup, mnemonic), 1, n);
    PlainConcat(mnemonic + "," + StatusOf(lookup, mnemonic), ",", n + 1, 1);
    PlainConcat(",", lookup.statusByteEmpty, 1, n);
    PlainConcat("," + lookup.statusByteEmpty, ",", n + 1, 1);
  }

  /** The header's first field, then a comma. */
  lemma OpcodeText()
    ensures Plain("Opcode,", 1)
  {
  }

  /** The implicit-only header's last three fields. */
  lemma HexText()
    ensures Plain("Hex,C,B", 2)
  {
  }

  /** The three empty fields standing for an absent mode. */
  lemma EmptyGroup()
    ensures Plain(",,,", 3) && Separators(",,,") == 3 && Balanced(",,,")
  {
    Unquoted(",,,");
  }

  /** Whatever the titles hold, each column's title group is three separators. */
  lemma {:induction false} TitleGroupsFields(titleModes: map<string, string>, operands: map<string, string>, order: seq<string>)
    requires HasTitles(titleModes, operands, order) && Quoteless(titleModes)
    ensures Separators(TitleGroups(titleModes, operands, order)) == 3 * |order|
    ensures Balanced(TitleGroups(titleModes, operands, order))
  {
    if order != [] {
      var prefix, mode := order[..|order| - 1], order[|order| - 1];
      TitleGroupsFields(titleModes, operands, prefix);
      EmptyGroup();
      QuotedField(titleModes[mode], ",,,");
      assert TitleGroup(titleModes, mode) == "\"" + titleModes[mode] + "\"" + ",,,";
      SeparatorsAppend(TitleGroups(titleModes, operands, prefix), TitleGroup(titleModes, mode));
    }
  }

  /** Whatever the operand texts hold, each column's label group is three separators. */
  lemma {:induction false} LabelGroupsFields(titleModes: map<string, string>, operands: map<string, string>, mnemonic: string,
                                             modes: map<string, string>, order: seq<string>)
    requires HasTitles(titleModes, operands, order) && Quoteless(operands) && '"' !in mnemonic
    ensures Separators(LabelGroups(titleModes, operands, mnemonic, modes, order)) == 3 * |order|
    ensures Balanced(LabelGroups(titleModes, operands, mnemonic, modes, order))
  {
    if order != [] {
      var prefix, mode := order[..|order| - 1], order[|order| - 1];
      LabelGroupsFields(titleModes, operands, mnemonic, modes, prefix);
      EmptyGroup();
      var group := if mode in modes then LabelGroup(operands, mnemonic, mode) else ",,,";
      if mode in modes {
        var t := mnemonic + " " + operands[mode];
        QuotedField(t, ",,,");
        assert group == "\"" + t + "\"" + ",,,";
      }
      SeparatorsAppend(LabelGroups(titleModes, operands, mnemonic, modes, prefix), group);
    }
  }

  /** Data groups of three-comma cells are three commas per column. */
  lemma {:induction false} DataGroupsFields(modes: map<string, string>, order: seq<string>)
    requires forall mode :: mode in modes ==> Plain(modes[mode], 3)
    ensures Plain(DataGroups(modes, order), 3 * |order|)
  {
    if order != [] {
      var prefix, mode := order[..|order| - 1], order[|order| - 1];
      DataGroupsFields(modes, prefix);
      EmptyGroup();
      PlainConcat(DataGroups(modes, prefix), if mode in modes then modes[mode] else ",,,", 3 * |prefix|, 3);
    }
  }

  /** The present cells are three commas per mode present. */
  lemma {:induction false} PresentCellsFields(modes: map<string, string>, order: seq<string>)
    requires forall mode :: mode in modes ==> Plain(modes[mode], 3)
    ensures Plain(PresentCells(modes, order), 3 * |PresentModes(modes, order)|)
  {
    if order != [] {
      var prefix, mode := order[..|order| - 1], order[|order| - 1];
      PresentCellsFields(modes, prefix);
      if mode in modes {
        PlainConcat(PresentCells(modes, prefix), modes[mode], 3 * |PresentModes(modes, prefix)|, 3);
      } else {
        assert PresentCells(modes, order) == PresentCells(modes, prefix);
      }
    }
  }

  /**
   * The header has `n + 3` fields before the columns and three per column;
   * the implicit-only header has `n + 5` fields (the start, then `Hex,C,B`);
   * main and compact matrices share the header.
   */
  lemma HeaderFields(titleModes: map<string, string>, operands: map<string, string>, lookup: CpuLookup, n: nat)
    requires HasTitles(titleModes, operands, lookup.order) && Quoteless(titleModes) && StatusColumns(lookup, n)
    ensures var h := Headers(titleModes, operands, lookup);
      && Separators(h.main[0]) == n + 2 + 3 * |lookup.order| && Balanced(h.main[0])
      && h.compact == h.main
      && Separators(h.implicit[0]) == n + 4 && Balanced(h.implicit[0])
  {
    LineStarts(lookup, "", n);
    Unquoted(HeaderStart(lookup));
    TitleGroupsFields(titleModes, operands, lookup.order);
    SeparatorsAppend(HeaderStart(lookup), TitleGroups(titleModes, operands, lookup.order));
    HexText();
    PlainConcat(HeaderStart(lookup), "Hex,C,B", n + 2, 2);
    Unquoted(HeaderStart(lookup) + "Hex,C,B");
  }

  /**
   * A mnemonic's label, data and compact lines have as many fields as a
   * header over the same columns; its implicit line has `n + 3` fields and
   * then three per mode present.
   */
  lemma LineFields(titleModes: map<string, string>, operands: map<string, string>, lookup: CpuLookup, n: nat,
                   mnemonic: string, modes: map<string, string>, order: seq<string>)
    requires HasTitles(titleModes, operands, order) && Quoteless(operands) && StatusColumns(lookup, n)
    requires Plain(mnemonic, 0) && forall mode :: mode in modes ==> Plain(modes[mode], 3)
    ensures Separators(FirstLine(titleModes, operands, lookup, mnemonic, modes, order)) == n + 2 + 3 * |order|
    ensures Separators(SecondLine(lookup, modes, order)) == n + 2 + 3 * |order|
    ensures Separators(CompactLine(lookup, mnemonic, modes, order)) == n + 2 + 3 * |order|
    ensures Separators(ImplicitLine(lookup, mnemonic, modes, order)) == n + 2 + 3 * |PresentModes(modes, order)|
  {
    LineStarts(lookup, mnemonic, n);
    var start := RowStart(lookup, mnemonic);
    Unquoted(start);
    LabelGroupsFields(titleModes, operands, mnemonic, modes, order);
    SeparatorsAppend(start, LabelGroups(titleModes, operands, mnemonic, modes, order));
    DataGroupsFields(modes, order);
    PresentCellsFields(modes, order);
    PlainConcat(DataRowStart(lookup), DataGroups(modes, order), n + 2, 3 * |order|);
    Unquoted(SecondLine(lookup, modes, order));
    PlainConcat(start, DataGroups(modes, order), n + 2, 3 * |order|);
    Unquoted(CompactLine(lookup, mnemonic, modes, order));
    PlainConcat(start, PresentCells(modes, order), n + 2, 3 * |PresentModes(modes, order)|);
    Unquoted(ImplicitLine(lookup, mnemonic, modes, order));
  }

  /** The lines of one mnemonic of an index whose cells and mnemonics are plain. */
  lemma IndexLineFields(titleModes: map<string, string>, operands: map<string, string>, lookup: CpuLookup, n: nat,
                        order: seq<string>, d: Index, m: string)
    requires HasTitles(titleModes, operands, order) && Quoteless(operands) && StatusColumns(lookup, n)
    requires ValidIndex(d) && PlainKeys(d) && m in d
    ensures Separators(FirstLine(titleModes, operands, lookup, m, d[m], order)) == n + 2 + 3 * |order|
    ensures Separators(SecondLine(lookup, d[m], order)) == n + 2 + 3 * |order|
    ensures Separators(CompactLine(lookup, m, d[m], order)) == n + 2 + 3 * |order|
    ensures RouteOf(d[m], order) == ImplicitOnly ==> Separators(ImplicitLine(lookup, m, d[m], order)) == n + 5
  {
    LineFields(titleModes, operands, lookup, n, m, d[m], order);
    RouteMeaning(d[m], order);
  }

  /** Every line has `w` separators, so `w + 1` fields. */
  predicate AllFields(lines: seq<string>, w: nat)
  {
    forall i :: 0 <= i < |lines| ==> Separators(lines[i]) == w
  }

  lemma AllFieldsConcat(a: seq<string>, b: seq<string>, w: nat)
    requires AllFields(a, w) && AllFields(b, w)
    ensures AllFields(a + b, w)
  {
    forall i | 0 <= i < |a + b| ensures Separators((a + b)[i]) == w {
      if i >= |a| {
        assert (a + b)[i] == b[i - |a|];
      }
    }
  }

  /** Lines that come in pairs, each line of each pair having `w` separators. */
  lemma PairsFields(lines: seq<string>, count: nat, w: nat)
    requires |lines| == 2 * count
    requires forall i :: 0 <= i < count ==> Separators(lines[2 * i]) == w && Separators(lines[2 * i + 1]) == w
    ensures AllFields(lines, w)
  {
    forall j | 0 <= j < |lines| ensures Separators(lines[j]) == w {
      var i := j / 2;
      if j % 2 == 0 {
        assert lines[j] == lines[2 * i];
      } else {
        assert lines[j] == lines[2 * i + 1];
      }
    }
  }

  /** The label and data lines of the mnemonics `keys` all have `n + 3` fields and three per column. */
  lemma BodyMainFields(titleModes: map<string, string>, operands: map<string, string>, lookup: CpuLookup, n: nat,
                       order: seq<string>, d: Index, keys: seq<string>)
    requires HasTitles(titleModes, operands, order) && Quoteless(operands) && StatusColumns(lookup, n)
    requires ValidIndex(d) && PlainKeys(d) && forall k :: k in keys ==> k in d
    ensures AllFields(Body(titleModes, operands, lookup, order, d, keys).main, n + 2 + 3 * |order|)
  {
    var main := Body(titleModes, operands, lookup, order, d, keys).main;
    var w := n + 2 + 3 * |order|;
    var ms := Routed(d, order, keys, Matrix);
    BodyMain(titleModes, operands, lookup, order, d, keys);
    forall i | 0 <= i < |ms| ensures Separators(main[2 * i]) == w && Separators(main[2 * i + 1]) == w {
      assert ms[i] in keys;
      IndexLineFields(titleModes, operands, lookup, n, order, d, ms[i]);
    }
    PairsFields(main, |ms|, w);
  }

  /** The compact lines of the mnemonics `keys` all have `n + 3` fields and three per column. */
  lemma BodyCompactFields(titleModes: map<string, string>, operands: map<string, string>, lookup: CpuLookup, n: nat,
                          order: seq<string>, d: Index, keys: seq<string>)
    requires HasTitles(titleModes, operands, order) && Quoteless(operands) && StatusColumns(lookup, n)
    requires ValidIndex(d) && PlainKeys(d) && forall k :: k in keys ==> k in d
    ensures AllFields(Body(titleModes, operands, lookup, order, d, keys).compact, n + 2 + 3 * |order|)
  {
    var compact := Body(titleModes, operands, lookup, order, d, keys).compact;
    var ms := Routed(d, order, keys, Matrix);
    BodyCompact(titleModes, operands, lookup, order, d, keys);
    forall i | 0 <= i < |compact| ensures Separators(compact[i]) == n + 2 + 3 * |order| {
      assert ms[i] in keys;
      IndexLineFields(titleModes, operands, lookup, n, order, d, ms[i]);
    }
  }

  /** The implicit-only lines of the mnemonics `keys` all have `n + 3` fields and three for the one cell. */
  lemma BodyImplicitFields(titleModes: map<string, string>, operands: map<string, string>, lookup: CpuLookup, n: nat,
                           order: seq<string>, d: Index, keys: seq<string>)
    requires HasTitles(titleModes, operands, order) && Quoteless(operands) && StatusColumns(lookup, n)
    requires ValidIndex(d) && PlainKeys(d) && forall k :: k in keys ==> k in d
    ensures AllFields(Body(titleModes, operands, lookup, order, d, keys).implicit, n + 5)
  {
    var body := Body(titleModes, operands, lookup, order, d, keys);
    var ims := Routed(d, order, keys, ImplicitOnly);
    BodyImplicit(titleModes, operands, lookup, order, d, keys);
    RoutedRoute(d, order, keys, ImplicitOnly);
    forall i | 0 <= i < |ims| ensures Separators(body.implicit[i]) == n + 5 {
      assert ims[i] in keys;
      IndexLineFields(titleModes, operands, lookup, n, order, d, ims[i]);
    }
  }

  /**
   * Over an index whose mnemonics hold no comma or quote, every line of the
   * main and compact matrices has the header's field count, `n + 3` and then
   * three per column; the implicit-only table's lines each have one field
   * more than its header, since the cell ends in a comma.
   */
  lemma MatrixViewsAligned(titleModes: map<string, string>, operands: map<string, string>, lookup: CpuLookup, n: nat, d: Index)
    requires HasTitles(titleModes, operands, lookup.order) && Quoteless(titleModes) && Quoteless(operands)
    requires StatusColumns(lookup, n) && ValidIndex(d) && PlainKeys(d)
    ensures var v, w := CsvViews(titleModes, operands, lookup, lookup.order, d), n + 2 + 3 * |lookup.order|;
      && AllFields(v.main, w) && AllFields(v.compact, w)
      && |v.implicit| > 0 && Separators(v.implicit[0]) == n + 4 && AllFields(v.implicit[1..], n + 5)
  {
    var keys := SortedSeq(d.Keys);
    SortedSeqMembers(d.Keys);
    var w := n + 2 + 3 * |lookup.order|;
    HeaderFields(titleModes, operands, lookup, n);
    BodyMainFields(titleModes, operands, lookup, n, lookup.order, d, keys);
    BodyCompactFields(titleModes, operands, lookup, n, lookup.order, d, keys);
    BodyImplicitFields(titleModes, operands, lookup, n, lookup.order, d, keys);
    var h, body := Headers(titleModes, operands, lookup), Body(titleModes, operands, lookup, lookup.order, d, keys);
    assert CsvViews(titleModes, operands, lookup, lookup.order, d) == h.Append(body);
    assert AllFields(h.main, w);
    AllFieldsConcat(h.main, body.main, w);
    AllFieldsConcat(h.compact, body.compact, w);
    assert (h.implicit + body.implicit)[1..] == body.implicit;
  }

  /**
   * The 6502 card: over an index whose mnemonics hold no comma or quote,
   * every main and compact line has 42 separators (43 fields) like the
   * header; the implicit-only header has 11 and each of its lines 12.
   */
  lemma MatrixViewsAligned6502(d: Index)
    requires ValidIndex(d) && PlainKeys(d)
    ensures HasTitles(TitleModes, Operands, Lookup6502.order)
    ensures var v := CsvViews(TitleModes, Operands, Lookup6502, Lookup6502.order, d);
      && AllFields(v.main, 42) && AllFields(v.compact, 42)
      && |v.implicit| > 0 && Separators(v.implicit[0]) == 11 && AllFields(v.implicit[1..], 12)
  {
    Lookup6502HasTitles();
    Tables6502Quoteless();
    StatusColumns6502();
    MatrixViewsAligned(TitleModes, Operands, Lookup6502, 7, d);
  }

  /** Neither `title_modes` nor `operands` holds a quote. */
  lemma Tables6502Quoteless()
    ensures Quoteless(TitleModes) && Quoteless(Operands)
  {
    assert Quoteless(TitleModes);
  }

  /** The 6502's status header, empty columns and rows are seven commas without quotes. */
  lemma StatusColumns6502()
    ensures StatusColumns(Lookup6502, 7)
  {
    StatusRows6502Shape();
    FlagRowCommas(Lookup6502.statusByteHeader);
    forall m | m in StatusByte6502 ensures Plain(StatusByte6502[m], 7) {
      FlagRowCommas(StatusByte6502[m]);
    }
    assert Plain(",,,,,,,", 7);
  }

  // ---------------------------------------------------------------------------
  // The branch table

  /** A cell of the index gives a branch line with the opcode's two hex digits. */
  lemma RelativeRowOfCell(mnemonic: string, opcode: Byte, cycles: nat, extra: nat, numBytes: int)
    ensures RelativeRow(mnemonic, CellText(opcode, cycles, extra, numBytes)) == Some(mnemonic + "," + Hex2(opcode) + ",,2,3,4")
  {
    CellTextShape(opcode, cycles, extra, numBytes);
    var s := CellText(opcode, cycles, extra, numBytes);
    assert ',' !in Hex2(opcode);
    SplitFirstAt(s, 2, ',');
  }

  /** The mnemonics of `keys` that have a relative cell, in `keys` order. */
  function Branches(d: Index, keys: seq<string>): (r: seq<string>)
    requires forall k :: k in keys ==> k in d
    ensures forall k :: k in r ==> k in keys && "relative" in d[k]
  {
    if keys == [] then []
    else
      var m := keys[|keys| - 1];
      Branches(d, keys[..|keys| - 1]) + if "relative" in d[m] then [m] else []
  }

  /**
   * On a valid index the branch table cannot fail: it is the header, then
   * one line for each mnemonic with a relative cell.
   */
  lemma {:induction false} RelativeLinesOnValidIndex(d: Index, keys: seq<string>)
    requires ValidIndex(d) && forall k :: k in keys ==> k in d
    ensures RelativeLines(d, keys).Ok?
    ensures var lines, bs := RelativeLines(d, keys).value, Branches(d, keys);
      && |lines| == |bs| + 1 && lines[0] == RelativeHeader
      && forall i :: 0 <= i < |bs| ==> RelativeRow(bs[i], d[bs[i]]["relative"]) == Some(lines[i + 1])
  {
    if keys != [] {
      var m := keys[|keys| - 1];
      RelativeLinesOnValidIndex(d, keys[..|keys| - 1]);
      if "relative" in d[m] {
        assert Occurrences(d[m]["relative"], ',') == 3;
        assert ',' in multiset(d[m]["relative"]);
      }
    }
  }

  /** On a valid index `create_relative_csv` prints its header and never raises. */
  lemma RelativeViewOnValidIndex(d: Index)
    requires ValidIndex(d)
    ensures RelativeView(d).Ok? && |RelativeView(d).value| > 0 && RelativeView(d).value[0] == RelativeHeader
  {
    SortedSeqIsSorted(d.Keys);
    RelativeLinesOnValidIndex(d, SortedSeq(d.Keys));
  }
}
