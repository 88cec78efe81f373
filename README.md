# 6502 reference card generator and cycle-table decorator, in Dafny

This project models two pieces of the 6502 reference-card repository.

**The reference-card generator (`refcard.py`).** `gen_csv` walks a processor's
opcode table. It unpacks each entry into byte count, mnemonic, addressing mode
and an optional flag, drops undocumented opcodes unless they are allowed,
upper-cases the mnemonic, shows `accumulator` as `implicit`, and files one
preformatted cell `"%02x,%d%s,%d,"` per (mnemonic, mode). A later entry for the
same slot overwrites an earlier one. `create_csv` then renders, over the
sorted mnemonics, the two-line main matrix, the one-line compact matrix, the
implicit-only table and the flat list. `create_relative_csv` renders the
branch table.

- Modules `RefcardTables`, `RefcardIndex`, `RefcardViews`, `RefcardViewFacts` and `Refcard` hold this part.
- The loops are methods: `GenIndex`, `CreateCsv` with `HeaderViews` and `RenderMnemonic`, `CreateRelativeCsv`, and `GenCsv`.
- Each loop is proved equal to a specification function (`BuildIndex`, `CsvViews`, `RowsOf`, `RelativeView`, `Card`).
- The lemmas state what those functions mean:
  - the last write wins;
  - which entries fail the build;
  - every cell has three commas and reads back as what it records;
  - which view each mnemonic is routed to;
  - every line of the main and compact matrices has as many fields as their header;
  - the branch table cannot fail on a built index.
- Printed text is modelled as the sequences of lines that are joined and printed.

**The cycle-table decorator (`cyclecount.py`).** `make_instruction_decorator`
returns `instruction(name, mode, cycles, extracycles=0)`, whose `decorate(f)`
parses the opcode from the hexadecimal text after the last `_` of
`f.__name__` and assigns four parallel lists at that index.

- Module `CycleCount` holds this part.
- The four lists are arrays held by the class `InstructionDecorator`.
- `Decorate` is proved against the pure `Decorated`, which treats Python's negative indices and `IndexError` as written.
- The lemmas state that only the opcode's slot changes, that the last registration of a slot wins, and that unregistered slots keep their initial values.
- `CycleCountData` lists the module's 151 registrations. It proves that every branch registers 2 cycles and 2 extra cycles, that the handler names spell strictly rising opcodes, and so what each of the 256 slots holds after the module body.

Supporting modules:
- `PyText` models Python's `%02x`, `%d`, `str.upper`, `split(",", 1)`, `split('_')[-1]` and `int(s, 16)`.
- `PySorted` models `sorted()` on a set of strings, in code-point order.
- `Wrappers` holds `Option` and `Result`.

## Model

| member | source | states |
|---|---|---|
| Refcard.Card | refcard.py:128-165 | Defines what a run prints and raises, step by step; `CardFailures` and `CardPrintsAllViews` state its outcomes. |
| Refcard.GenCsv | refcard.py:128-165 | What a run prints and raises. An unknown processor prints nothing and raises. A malformed entry raises before anything is printed. Otherwise the four `create_csv` views are printed, then the branch table, or a failure if a branch cell has no comma. |
| Refcard.CardFailures | refcard.py:128-149 | A run fails exactly when the CPU name is missing from either table, or when some entry has neither three nor four fields. An unknown CPU prints nothing. |
| Refcard.CardPrintsAllViews | refcard.py:164-175 | Once the index is built, the run raises nothing and prints five blocks. The last block starts with the branch-table header. |
| RefcardTables.AddressModeOrder | refcard.py:32-104 | The lookup succeeds exactly for "6502" (the KeyError otherwise), and its cycle tables cover all 256 opcodes. |
| RefcardTables.Lookup6502Shape | refcard.py:32-124 | Every column of the 6502 order has a title and an operand text. `relative` is not a column but has an operand text. `implicit` is a column. The mode map sends `accumulator` to `implicit`. |
| RefcardTables.Lookup6502 | refcard.py:32-104 | Defines the 6502 entry of `address_mode_order`: the mode map, the eleven columns, the 256-entry cycle and extra-cycle tables and the status texts; `Lookup6502Shape`, `StatusRows6502Shape` and `StatusColumns6502` state its shape. |
| RefcardTables.TitleModes | refcard.py:106-119 | Defines `title_modes`; `Lookup6502Shape` states that every 6502 column has a title, and `MatrixViewsAligned6502` relies on it. |
| RefcardTables.Operands | refcard.py:121-124 | Defines `operands`, a copy of `title_modes` with `implicit` mapped to the empty text; `Lookup6502Shape` states that every 6502 column and `relative` have an operand text. |
| RefcardViews.Lookup6502HasTitles | refcard.py:32-124 | The 6502 column order meets what the renderers need from `title_modes` and `operands`. |
| RefcardIndex.Unpack | refcard.py:145-149 | A 4-tuple uses its own flag. A 3-tuple gets flag 0. Any other length fails. |
| RefcardIndex.Undocumented | refcard.py:151 | Defines `flag & flag_undoc` as bit 7 of the flag, read with floor division; `UndocumentedIsBit7` states it. |
| RefcardIndex.UndocumentedIsBit7 | refcard.py:151 | For every integer flag, negative ones included, the undocumented test is exactly bit 7 of its low byte: `(flag mod 256) & 128 != 0`. |
| RefcardIndex.Admitted | refcard.py:151 | An entry is filed when undocumented opcodes are allowed or its flag lacks bit 7. |
| RefcardIndex.MapMode | refcard.py:152 | Defines `lookup['map'].get(mode_name, mode_name)`; `MapModeOf6502` states its 6502 instance. |
| RefcardIndex.MapModeOf6502 | refcard.py:152 | `accumulator` is stored as `implicit`; every other mode keeps its name. |
| RefcardIndex.CellText | refcard.py:153 | Defines the cell `"%02x,%d%s,%d,"`; `CellTextShape` and `CellRoundTrip` state what it holds. |
| RefcardIndex.FieldsShape | refcard.py:153 | Three comma-terminated fields free of commas and quotes hold exactly three commas and no quote, the first right after the first field. |
| RefcardIndex.CellTextShape | refcard.py:153 | A cell has exactly three commas and no quote. It starts with the opcode's two hex digits and a comma. |
| RefcardIndex.CellRoundTrip | refcard.py:153 | Reading a cell back gives the opcode, the cycle count, whether extra cycles exist (the `+`), and the byte count. |
| RefcardIndex.CellFor | refcard.py:153 | Defines the cell filed for an opcode from the lookup's cycle and extra-cycle tables; `CellTextShape` and `CellRoundTrip` state what it holds. |
| RefcardIndex.Insert | refcard.py:153 | Defines `d[key][mode] = cell` on a `defaultdict(dict)`; `InsertKeepsValid` and `BuildIndexIsLastWrite` state its effect. |
| RefcardIndex.Step | refcard.py:145-155 | Defines one pass of the loop: unpack (or raise), skip by policy, else file the cell under the upper-cased mnemonic and mapped mode; `StepKeepsValid` and `BuildFromIsLastWrite` state its effect. |
| RefcardIndex.BuildFrom | refcard.py:144-155 | Defines the rest of the loop from a given index, stopping at the first error; the lemmas below state its result. |
| RefcardIndex.BuildIndex | refcard.py:142-155 | Defines the index `gen_csv` builds from `defaultdict(dict)`; `BuildIndexIsLastWrite`, `BuildFromFailsOnlyOnMalformed` and `BuiltIndexIsValid` state it. |
| RefcardIndex.GenIndex | refcard.py:142-155 | The loop builds the same index, or raises the same error, as `BuildIndex`. |
| RefcardIndex.LastWriteIsLast | refcard.py:144-153 | `LastWrite` is None exactly when no entry writes the slot. Otherwise it is the cell of a writing entry that no later entry overwrites. |
| RefcardIndex.BuildFromIsLastWrite | refcard.py:144-155 | Resuming the loop leaves each slot at its last write in the rest of the table, else as it was. |
| RefcardIndex.BuildIndexIsLastWrite | refcard.py:142-155 | Every (mnemonic, mode) slot of the index holds the cell of the last admitted entry for it, and is empty when none wrote it. |
| RefcardIndex.BuildFromFailsOnlyOnMalformed | refcard.py:144-149 | The build fails exactly when some entry has an unsupported arity, and it reports the first such entry. |
| RefcardIndex.SkippedEntriesLeaveIndex | refcard.py:151-155 | Dropping the entries the undocumented policy skips does not change the result. |
| RefcardIndex.InsertKeepsValid | refcard.py:153 | Filing an upper-case key with a cell of three commas and no quote keeps the index valid. |
| RefcardIndex.StepKeepsValid | refcard.py:145-155 | One loop pass keeps the index valid: upper-case keys, no empty mode map, three commas and no quote per cell. |
| RefcardIndex.BuildFromKeepsValid | refcard.py:144-155 | The rest of the loop keeps the index valid. |
| RefcardIndex.BuiltIndexIsValid | refcard.py:142-155 | The index `gen_csv` builds is valid. |
| RefcardViews.PresentModes | refcard.py:200-208 | Every present mode is a mode the mnemonic has. |
| RefcardViews.PresentModesMembers | refcard.py:200-208 | The present modes are exactly the columns the mnemonic has, and there are no more of them than columns. |
| RefcardViews.StatusOf | refcard.py:194 | Defines `lookup['status_byte'].get(mnemonic, lookup['status_byte_empty'])`; `LineStarts` and `StatusColumns6502` state its field count. |
| RefcardViews.FirstLine | refcard.py:194-214 | Defines the label line of a main-matrix pair; `ScanMeaning` states that the loop builds it and `LineFields` its field count. |
| RefcardViews.SecondLine | refcard.py:196-213 | Defines the data line of a main-matrix pair; `ScanMeaning` states that the loop builds it and `LineFields` its field count. |
| RefcardViews.CompactLine | refcard.py:197-214 | Defines the compact-matrix line; `ScanMeaning` states that the loop builds it and `LineFields` its field count. |
| RefcardViews.ImplicitLine | refcard.py:195-205 | Defines the implicit-only line, which gets no empty groups for absent modes; `ImplicitOnlyLine`, `PresentCellsJoinPresentModes` and `PresentCellsFields` state it. |
| RefcardViews.ListRow | refcard.py:207 | Defines one flat-list line: quoted instruction, status columns, cell; `ListRowsFollowPresentModes` states where the rows come from. |
| RefcardViews.ListRowsInOrder | refcard.py:200-207 | Defines the flat-list lines of the present column modes; `ListRowsFollowPresentModes` states them per present mode, in column order. |
| RefcardViews.RouteOf | refcard.py:219-225 | Defines which views get a mnemonic's matrix lines from its found-mode count; `RouteMeaning` and `BranchOnlyInNoMatrix` state it. |
| RefcardViews.HeaderViews | refcard.py:182-191 | The implicit header is `Opcode,<status>,Hex,C,B`. The main and compact headers are the same line: `Opcode,<status>,` then one quoted title with two empty fields per column. |
| RefcardViews.Headers | refcard.py:182-191 | Defines the header lines: main and compact share `Opcode,<status header>,` plus one quoted title group per column, the implicit-only table has `Opcode,<status header>,Hex,C,B`; `HeaderViews` and `HeaderFields` state them. |
| RefcardViews.Scan | refcard.py:193-214 | Defines the slot-by-slot growth of a mnemonic's lines; `ScanMeaning` states what it yields. |
| RefcardViews.RowsOf | refcard.py:192-225 | Defines a mnemonic's lines per view from the scan and the route; `RowsOfMeaning` states them outright. |
| RefcardViews.ScanMeaning | refcard.py:193-214 | The slot-by-slot loop yields the label line, the data line, the implicit line, the compact line, one list row per present mode, the mode count and the implicit flag. |
| RefcardViews.RowsOfMeaning | refcard.py:192-225 | A mnemonic's contribution to each view, stated outright per route, with the list rows followed by the relative row. |
| RefcardViews.Body | refcard.py:192-225 | Defines the lines of the mnemonics, appended one mnemonic at a time; `BodyMain`, `BodyCompact`, `BodyImplicit` and `BodyList` state each view's lines outright. |
| RefcardViews.CsvViews | refcard.py:177-230 | Defines what `create_csv` prints: the headers, then the body over the sorted keys; `CreateCsv` is proved to produce it, and `CsvViewsList`, `MatrixViewsAligned` and `HeaderViews` state its views. |
| RefcardViews.RenderMnemonic | refcard.py:193-225 | The body of the mnemonic loop produces exactly `RowsOf`. |
| RefcardViews.RenderedIsHeadersBody | refcard.py:192-225 | Appending one mnemonic at a time gives the headers followed by the body. |
| RefcardViews.CreateCsv | refcard.py:177-230 | The four printed views are the headers followed by each sorted mnemonic's lines. |
| RefcardViews.RelativeRow | refcard.py:172-174 | Defines a branch line: the text before the cell's first comma, or the ValueError of a cell without one; `RelativeRowOfCell` states it for real cells. |
| RefcardViews.RelativeLines | refcard.py:167-175 | Defines the branch table over a key sequence, failing at the first bad cell; `RelativeErrorPropagates` and `RelativeLinesOnValidIndex` state it. |
| RefcardViews.RelativeView | refcard.py:167-175 | Defines `create_relative_csv` over the sorted keys; `RelativeViewOnValidIndex` states it on a built index. |
| RefcardViews.RelativeErrorPropagates | refcard.py:170-174 | Once a branch cell without a comma is met, the whole branch table fails with that error. |
| RefcardViews.CreateRelativeCsv | refcard.py:167-175 | The loop produces exactly `RelativeView`: the header, then one line per sorted mnemonic with a relative cell. |
| RefcardViewFacts.RouteMeaning | refcard.py:219-225 | No matrix line exactly when no column mode is present. The implicit-only table exactly when `implicit` is the only present mode. |
| RefcardViewFacts.BranchOnlyInNoMatrix | refcard.py:187-225 | A mnemonic whose only mode is `relative` appears in none of the three matrix views. |
| RefcardViewFacts.PresentCellsJoinPresentModes | refcard.py:205 | The implicit line's cells are the cells of the present modes, joined in column order. |
| RefcardViewFacts.ImplicitOnlyLine | refcard.py:195-221 | An implicit-only mnemonic's line is the mnemonic, its status columns and its implicit cell. |
| RefcardViewFacts.DataGroupsCommas | refcard.py:204-214 | On cells with three commas, every column adds exactly three commas to a data line. |
| RefcardTables.DictOf | refcard.py:53-102 | Defines a dict display: the pairs in turn, a later key overwriting an earlier one; `DictOfFlagRows` states what it keeps. |
| RefcardTables.FlagRowCommas | refcard.py:51-101 | A status row of eight one-character flags has seven commas and no quote. |
| RefcardTables.DictOfFlagRows | refcard.py:53-102 | A dict displayed from status rows holds only status rows. |
| RefcardTables.StatusRows6502Shape | refcard.py:51-102 | The 6502 status header and each of the 48 status rows are eight one-character flags separated by commas. |
| CsvText.SeparatorsAppend | refcard.py:175-230 | After a line with its quotes closed, the separating commas of what follows add up, and the quotes stay closed exactly when they do in the rest. |
| CsvText.Unquoted | refcard.py:175-230 | In a line without quotes every comma separates two fields. |
| CsvText.QuotedField | refcard.py:187-203 | A quoted field followed by k commas has k separators whatever the quotes hold (the titles `$nn,X` and `($nn),Y` have commas). |
| CsvText.PlainConcat | refcard.py:195-213 | Putting two quote-free runs together adds their commas. |
| RefcardViewFacts.LineStarts | refcard.py:182-197 | With status columns of n commas and a mnemonic without comma or quote, the header start, the label/compact start and the data start are each n + 2 commas without quotes. |
| RefcardViewFacts.TitleGroupsFields | refcard.py:187-189 | The header's title groups have three separators per column, and close their quotes. |
| RefcardViewFacts.LabelGroupsFields | refcard.py:202-212 | The label line's groups have three separators per column, present mode or not. |
| RefcardViewFacts.DataGroupsFields | refcard.py:204-213 | On cells of three commas and no quote, the data groups are three commas per column without quotes. |
| RefcardViewFacts.PresentCellsFields | refcard.py:205 | The implicit line's cells are three commas per present mode. |
| RefcardViewFacts.HeaderFields | refcard.py:182-191 | The main header has n + 2 + 3 × columns separators; the compact header is the same line; the implicit-only header has n + 4. |
| RefcardViewFacts.LineFields | refcard.py:195-214 | A mnemonic's label, data and compact lines each have n + 2 + 3 × columns separators, as the header over the same columns; its implicit line has n + 2 + 3 × present modes. |
| RefcardViewFacts.IndexLineFields | refcard.py:195-221 | On a valid index with plain mnemonics, a mnemonic's matrix lines have the header's count, and its implicit-only line has n + 5. |
| RefcardViewFacts.BodyMainFields | refcard.py:219-224 | Every line the main matrix gets for the mnemonics has the header's separator count. |
| RefcardViewFacts.BodyCompactFields | refcard.py:219-225 | Every line the compact matrix gets for the mnemonics has the header's separator count. |
| RefcardViewFacts.BodyImplicitFields | refcard.py:219-221 | Every line of the implicit-only table after its header has n + 5 separators. |
| RefcardViewFacts.MatrixViewsAligned | refcard.py:177-224 | On a valid index whose mnemonics have no comma or quote, every main and compact line, header included, has n + 2 + 3 × columns separators. The implicit-only header has n + 4 and each of its lines n + 5: the cell's trailing comma adds an empty field. |
| RefcardViewFacts.StatusColumns6502 | refcard.py:51-102 | The 6502 status header, the empty status columns and every status row are seven commas without quotes. |
| RefcardViewFacts.MatrixViewsAligned6502 | refcard.py:32-224 | For the 6502, on a valid index whose mnemonics have no comma or quote, every main and compact line has 42 separators (43 fields), as the header does. The implicit-only header has 11 and each of its lines 12. |
| RefcardViewFacts.ListRowsFollowPresentModes | refcard.py:200-207 | One list row per present mode, in column order. Each row is quoted instruction, status columns (or the empty ones), then the cell. |
| RefcardViewFacts.RoutedRoute | refcard.py:217-224 | Every mnemonic gathered for a view is one the routing test sends to that view. |
| RefcardViewFacts.BodyMain | refcard.py:219-224 | The main matrix holds, per mnemonic routed to the matrices and in sorted order, its label line and then its data line, and nothing else. |
| RefcardViewFacts.BodyCompact | refcard.py:219-225 | The compact matrix holds one compact line per mnemonic routed to the matrices. |
| RefcardViewFacts.BodyImplicit | refcard.py:219-221 | The implicit-only table holds one implicit line per implicit-only mnemonic. |
| RefcardViewFacts.MnemonicList | refcard.py:200-217 | Defines a mnemonic's flat-list lines: its present column modes in column order, then its `relative` line; `BodyList` states that the list view is made of them. |
| RefcardViewFacts.ListLines | refcard.py:192-217 | Defines the flat-list lines of a key sequence, with no routing; `BodyList` states the body's list view is exactly this. |
| RefcardViewFacts.BodyList | refcard.py:192-217 | The flat list gets every mnemonic's list lines in key order, whatever view its matrix lines go to, and nothing else. |
| RefcardViewFacts.CsvViewsList | refcard.py:177-230 | The printed flat list has no header. It is the list lines of the sorted mnemonics. |
| RefcardViewFacts.RelativeRowOfCell | refcard.py:173-174 | The branch line of a cell is `MNEMONIC,<two hex digits of the opcode>,,2,3,4`. |
| RefcardViewFacts.RelativeLinesOnValidIndex | refcard.py:167-175 | On a valid index the branch table cannot fail. It is the header plus one line per mnemonic with a relative cell, in order. |
| RefcardViewFacts.RelativeViewOnValidIndex | refcard.py:167-175 | `create_relative_csv` on a valid index prints its header and raises nothing. |
| PySorted.SortedSeqIsSorted | refcard.py:192 | `sorted(d.keys())` is strictly increasing in code-point order and holds exactly the keys. |
| PySorted.BelowTotal | refcard.py:192 | String order is total. |
| PySorted.BelowTransitive | refcard.py:192 | String order is transitive. |
| PySorted.LeastUnique | refcard.py:192 | A set has at most one least string. |
| PySorted.Sorted | refcard.py:170 | The method sorts the keys into `SortedSeq`. |
| PyText.Hex2 | refcard.py:153 | `%02x` of a byte is two lower-case hex digits whose value is the byte. |
| PyText.IntToDecimal | refcard.py:153 | `%d` has no comma, `+` or quote, and it parses back to the number. |
| PyText.Upper | refcard.py:153 | `upper()` keeps the length, replaces each lower-case letter by its capital and leaves every other character as it was. |
| PyText.UpperIsCanonical | refcard.py:153 | Upper-cased text is upper case, and upper-casing it again changes nothing. |
| PyText.SplitFirst | refcard.py:173 | Fails exactly when there is no separator. Otherwise it returns the text before the first separator and the rest. |
| PyText.AfterLast | cyclecount.py:40 | Defines `s.split(c)[-1]`: what follows the last `c`, or all of `s`; `AfterLastIsSuffix` and `AfterLastOfSuffix` state it. |
| PyText.AfterLastIsSuffix | cyclecount.py:40 | `split('_')[-1]` is the longest suffix without `_`, preceded by `_` when shorter than the name. |
| PyText.ParseHexInt | cyclecount.py:40 | `int(s, 16)` succeeds exactly when the optional sign and `0x` are followed by hex digits. |
| PyText.ParseHexIntOfHex2 | cyclecount.py:40 | `0x` plus two hex digits, or the two digits alone, parse back to the byte. |
| CycleCount.Instruction | cyclecount.py:38 | Defines the arguments `instruction(name, mode, cycles, extracycles=0)` closes over; `ExtraCyclesDefault` states the default. |
| CycleCount.OpcodeOf | cyclecount.py:40 | Defines `int(f.__name__.split('_')[-1], 16)`, None for the ValueError; `OpcodeOfInstName` and `SlotOf` state it. |
| CycleCount.Decorated | cyclecount.py:39-45 | Defines `decorate(f)` on the four lists: parse the opcode, then file; `DecoratedSucceeds`, `DecoratedWritesOneSlot` and `DecoratedInstName` state it. |
| CycleCount.FiledAt | cyclecount.py:41-45 | Defines the four assignments in order, stopping at the first IndexError; `DecoratedWritesOneSlot` states their effect. |
| CycleCount.Registered | cyclecount.py:32-50 | Defines a run of decorations over the module's lists, stopping at the first error; `RegisteredLast` and `LastRegistrationWins` state it. |
| CycleCount.Filed | cyclecount.py:41-44 | Filing a registration at a slot keeps the four lists at their length. |
| CycleCount.ExtraCyclesDefault | cyclecount.py:38 | Leaving out `extracycles` registers 0 extra cycles. |
| CycleCount.OpcodeOfInstName | cyclecount.py:40 | A handler named `inst_0x` plus two hex digits is filed under that byte. |
| CycleCount.Slot | cyclecount.py:41-44 | A Python index is valid exactly in `-len..len-1`, and a negative index counts from the end. |
| CycleCount.Assign | cyclecount.py:41-44 | A list assignment raises exactly on an invalid index. Otherwise it changes that one element. |
| CycleCount.DecoratedSucceeds | cyclecount.py:39-45 | `decorate` succeeds exactly when the name ends in hex that indexes all four lists, and then it returns `f` itself. It never changes a list's length. A name that is not hex changes nothing. |
| CycleCount.DecoratedWritesOneSlot | cyclecount.py:41-44 | On equal-length lists a successful registration writes its four values at the opcode's slot only. A failed one changes nothing. |
| CycleCount.DecoratedInstName | cyclecount.py:40-45 | `inst_0xNN` on 256-slot lists writes slot NN of each list and returns the function. |
| CycleCount.SlotOf | cyclecount.py:40-41 | The slot a function is filed under exists exactly when its name parses and indexes the lists. |
| CycleCount.RegisteredLast | cyclecount.py:39-45 | One more registration files its values into its slot. |
| CycleCount.LastRegistrationWins | cyclecount.py:41-44 | A run of registrations with valid names succeeds. Each slot holds the values of the last registration filed under it, or its initial values. |
| CycleCount.UnregisteredSlotKeepsInitial | cyclecount.py:32-35 | From the module's initial lists, a slot nobody registers keeps `""` (no handler), `('???', 'imp')`, 0 cycles and 0 extra cycles. |
| CycleCount.InitialTables | cyclecount.py:32-35 | Defines the four module lists: 256 slots of `""`, 0, 0 and `('???', 'imp')`; `UnregisteredSlotKeepsInitial` and `ModuleDecorator` state it. |
| CycleCount.LastForDistinct | cyclecount.py:41-44 | When no two registrations land in one slot, the one that lands in slot k is the last write there, and nobody writes a slot that no registration names. |
| CycleCount.InstructionDecorator.constructor | cyclecount.py:37 | The decorator keeps the four lists it is given, with no copies made. |
| CycleCount.InstructionDecorator.Decorate | cyclecount.py:39-45 | The lists after the call, and its result, are those of `Decorated`. When the cycle and extra-cycle lists are the same list, it keeps the extra cycles. |
| CycleCount.Store | cyclecount.py:41-44 | An in-place list assignment: it writes the slot, or raises and leaves the list unchanged. |
| CycleCount.ModuleDecorator | cyclecount.py:32-50 | The module-level lists are four fresh lists of 256 slots holding their initial values, and the cycle and extra-cycle lists are distinct. The decorator built over them is fresh. |
| CycleCountData.RegistrationsBranchTimings | cyclecount.py:52-791 | The module makes 151 registrations, and every `rel` one has 2 cycles and 2 extra cycles. |
| CycleCountData.NamedOpcode | cyclecount.py:40 | Defines the byte spelled by a handler name `inst_0x` plus two hex digits; `InstNamedSlot` states that `decorate` files it there. |
| CycleCountData.InstNamedSlot | cyclecount.py:40-41 | A handler named `inst_0x` plus two lower-case hex digits lands in the slot those digits spell. |
| CycleCountData.NamedRowRising | cyclecount.py:52-791 | Handlers named under one high digit, with rising low digits, spell rising opcodes within that digit's sixteen. |
| CycleCountData.RegistrationsRising | cyclecount.py:52-791 | The 151 handlers of the module are named `inst_0x` plus two hex digits, in strictly rising opcode order. |
| CycleCountData.RisingSlots | cyclecount.py:40-44 | Handlers named in rising order all index the 256 slots, each the one its name spells, and no slot is named twice. |
| CycleCountData.RisingTablesAt | cyclecount.py:32-50 | Registering handlers named in rising order succeeds. Each slot then holds its one registration's values, or its initial values. |
| CycleCountData.ModuleTablesAt | cyclecount.py:32-791 | After the module body, each of the 256 slots holds the handler, name, mode and cycle counts of the one registration named for it, or its initial values when none is. |

## Left out

- Output: `print` is not modelled. Each printed block is the sequence of lines it joins with newlines (refcard.py:175, 227-230). The final `print cycletime` / `print extracycles` of cyclecount.py:794-795 are left out.
- The `cputables` module is generated code outside the repository. Its `processors` dictionary is a parameter, and each opcode table is a sequence of (opcode, entry) pairs in iteration order.
- Logging and the argparse command line (refcard.py:27-29, 150, 155, 234-248) are left out.
- The `header +=` at refcard.py:201 rebinds a string that has already been appended. Its only effect would be a KeyError for a column without a title, and `HasTitles` rules that out for every column order the renderers are given.
- `list_header` (refcard.py:186) is computed but never used.
- Opcodes are bytes (0-255), since the 6502 cycle tables have 256 entries. Other keys of the opcode table are not modelled.
- Tuples other than 3-tuples and 4-tuples are represented only by their length (`OtherArity`). Values that Python would reject later, such as a non-string mnemonic, are not modelled.
- PyText.Upper: upper-cases ASCII `a`-`z` only; Unicode case mapping is not modelled.
- PyText.ParseHexInt: accepts an optional sign and `0x`/`0X` prefix followed by hex digits. Surrounding whitespace, which `int(s, 16)` also accepts, is not modelled; no name in cyclecount.py has any.
- The instruction bodies of cyclecount.py (emulator semantics calling an external CPU class) are left out. A decorated function is represented by its `__name__`.
- `title_modes` and `operands` are parameters of the renderers, because `create_csv` reads them as globals. `GenCsv` passes the repository's tables.
- A mnemonic whose only mode is `relative` appears in none of the three matrix and implicit views, only in the list and branch views (refcard.py:219-225; `BranchOnlyInNoMatrix`).
- RefcardViewFacts.MatrixViewsAligned: mnemonics come from the external opcode tables, so that they hold no comma or quote is a precondition (`PlainKeys`), not derived.
- CycleCountData.RegistrationsBranchTimings: the 151 registrations are not proved to reproduce the cycle tables of refcard.py. Only the branch timings, and where each registration lands (`ModuleTablesAt`), are stated.
- The four lists `create_csv` appends to are the four fields of one `Csv` value. `CreateCsv` returns them as four separate results.
