/**
 * `gen_csv`: looks up the processor's opcode table and its address-mode
 * entry, builds the mnemonic index, then prints the four views of
 * `create_csv` followed by the branch table of `create_relative_csv`.
 */
module Refcard {
  import opened Wrappers
  import opened PySorted
  import opened RefcardTables
  import opened RefcardIndex
  import opened RefcardViews
  import opened RefcardViewFacts

  /** `cputables.processors`: the opcode table of each processor, in dictionary order. */
  type Processors = map<string, OpcodeTable>

  /**
   * What a run prints, one element per `print` call (each a list of lines
   * joined by newlines), and the exception that ended it, if any.
   */
  datatype Outcome = Outcome(printed: seq<seq<string>>, failure: Option<Error>)

  /** What `gen_csv(cpu_name, allow_undocumented)` prints and raises. */
  ghost function Card(processors: Processors, cpuName: string, allow: bool): Outcome
  {
    if cpuName !in processors then Outcome([], Some(UnknownCpu(cpuName)))
    else match AddressModeOrder(cpuName)
      case None => Outcome([], Some(UnknownCpu(cpuName)))
      case Some(lookup) =>
        match BuildIndex(lookup, allow, processors[cpuName])
        case Err(e) => Outcome([], Some(e))
        case Ok(d) =>
          Lookup6502HasTitles();
          var v := CsvViews(TitleModes, Operands, lookup, lookup.order, d);
          var shown := [v.main, v.compact, v.implicit, v.list];
          match RelativeView(d)
          case Err(e) => Outcome(shown, Some(e))
          case Ok(relative) => Outcome(shown + [relative], None)
  }

  /** `gen_csv`. */
  method GenCsv(processors: Processors, cpuName: string, allowUndocumented: bool) returns (printed: seq<seq<string>>, failure: Option<Error>)
    ensures Outcome(printed, failure) == Card(processors, cpuName, allowUndocumented)
  {
    if cpuName !in processors {
      return [], Some(UnknownCpu(cpuName));
    }
    var cpu := processors[cpuName];
    var found := AddressModeOrder(cpuName);
    if found.None? {
      return [], Some(UnknownCpu(cpuName));
    }
    var lookup := found.value;
    var built := GenIndex(lookup, cpu, allowUndocumented);
    if built.Err? {
      return [], Some(built.error);
    }
    var d := built.value;
    Lookup6502HasTitles();
    var main, compact, implicit, list := CreateCsv(TitleModes, Operands, d, lookup, lookup.order);
    printed := [main, compact, implicit, list];
    var relative := CreateRelativeCsv(d);
    if relative.Err? {
      return printed, Some(relative.error);
    }
    printed := printed + [relative.value];
    failure := None;
  }

  /**
   * A run fails exactly when the processor is unknown to either table or an
   * opcode entry of its table does not unpack into three or four fields; an
   * unknown processor prints nothing.
   */
  lemma CardFailures(processors: Processors, cpuName: string, allow: bool)
    ensures var c := Card(processors, cpuName, allow);
      && (c.failure.None? <==>
            cpuName == "6502" && cpuName in processors
            && forall i :: 0 <= i < |processors[cpuName]| ==> !processors[cpuName][i].1.OtherArity?)
      && (cpuName !in processors || cpuName != "6502" ==> c == Outcome([], Some(UnknownCpu(cpuName))))
  {
    if cpuName in processors && cpuName == "6502" {
      BuildFromFailsOnlyOnMalformed(Lookup6502, allow, map[], processors[cpuName]);
      BuiltIndexIsValid(Lookup6502, allow, processors[cpuName]);
      if BuildIndex(Lookup6502, allow, processors[cpuName]).Ok? {
        RelativeViewOnValidIndex(BuildIndex(Lookup6502, allow, processors[cpuName]).value);
      }
    }
  }

  /**
   * The branch table never raises, since every cell the index holds has its
   * commas: a run that builds its index prints all five blocks, the last
   * being the branch table under its header.
   */
  lemma CardPrintsAllViews(processors: Processors, cpuName: string, allow: bool)
    requires cpuName == "6502" && cpuName in processors
    requires BuildIndex(Lookup6502, allow, processors[cpuName]).Ok?
    ensures var c := Card(processors, cpuName, allow);
      c.failure.None? && |c.printed| == 5 && c.printed[4] != [] && c.printed[4][0] == RelativeHeader
  {
    BuiltIndexIsValid(Lookup6502, allow, processors[cpuName]);
    RelativeViewOnValidIndex(BuildIndex(Lookup6502, allow, processors[cpuName]).value);
  }
}
