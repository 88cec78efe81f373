/**
 * The instruction-registration decorator of the cycle counter: the four
 * parallel tables indexed by opcode (handler, disassembly pair, base cycles,
 * extra cycles) and `decorate`, which files a handler under the opcode
 * spelled in hexadecimal after the last `_` of its name.
 */
module CycleCount {
  import opened Wrappers
  import opened PyText

  /** A decorated Python function; registration looks only at its `__name__`. */
  datatype PyFunction = PyFunction(name: string)

  /** A slot of `instruct`: the initial empty string, or a registered function. */
  datatype Handler = NoHandler | Handler(fn: PyFunction)

  /** What `instruction(name, mode, cycles, extracycles)` captures for its `decorate`. */
  datatype Registration = Registration(name: string, mode: string, cycles: int, extracycles: int)

  /** `instruction(name, mode, cycles, extracycles=0)`. */
  function Instruction(name: string, mode: string, cycles: int, extracycles: int := 0): Registration
  {
    Registration(name, mode, cycles, extracycles)
  }

  /** Leaving out `extracycles` registers no extra cycles. */
  lemma ExtraCyclesDefault(name: string, mode: string, cycles: int)
    ensures Instruction(name, mode, cycles) == Registration(name, mode, cycles, 0)
  {
  }

  /** The exceptions `decorate` can raise. */
  datatype DecorateError =
    | NotHex(name: string)      // ValueError of `int(..., 16)`
    | IndexOutOfRange(op: int)  // IndexError of a table assignment

  /** `int(name.split('_')[-1], 16)`. */
  function OpcodeOf(name: string): Option<int>
  {
    ParseHexInt(AfterLast(name, '_'))
  }

  /** A handler named `inst_0x` and two hex digits is filed under that byte. */
  lemma OpcodeOfInstName(b: Byte)
    ensures OpcodeOf("inst_0x" + Hex2(b)) == Some(b)
  {
    assert "inst_0x" + Hex2(b) == "inst_" + ("0x" + Hex2(b));
    assert '_' !in "0x" + Hex2(b) by {
      assert forall i :: 0 <= i < 2 ==> ("0x" + Hex2(b))[i + 2] == Hex2(b)[i];
    }
    AfterLastOfSuffix("inst_", "0x" + Hex2(b), '_');
    ParseHexIntOfHex2(b);
  }

  /** The position a Python list of length `len` means by index `k`; negative indices count from the end. */
  function Slot(k: int, len: nat): (r: Option<nat>)
    ensures r.Some? <==> -(len as int) <= k < len
    ensures r.Some? ==> r.value < len && (if k >= 0 then r.value == k else r.value == k + len)
  {
    if 0 <= k < len then Some(k) else if -(len as int) <= k < 0 then Some(k + len) else None
  }

  /** `s[k] = v` on a Python list; `None` stands for the IndexError. */
  function Assign<T>(s: seq<T>, k: int, v: T): (r: Option<seq<T>>)
    ensures r.Some? <==> Slot(k, |s|).Some?
    ensures r.Some? ==> r.value == s[Slot(k, |s|).value := v]
  {
    match Slot(k, |s|)
    case None => None
    case Some(i) => Some(s[i := v])
  }

  /** The contents of the four tables. */
  datatype Tables = Tables(instruct: seq<Handler>, disasm: seq<(string, string)>, cycles: seq<int>, extras: seq<int>)

  /** The tables after `decorate`, and the function it returns or the exception it raises. */
  datatype Decoration = Decoration(tables: Tables, result: Result<PyFunction, DecorateError>)

  /**
   * `decorate(f)` on tables `t`: parse the opcode, then assign the four
   * tables in turn.
   */
  function Decorated(t: Tables, reg: Registration, f: PyFunction): Decoration
  {
    match OpcodeOf(f.name)
    case None => Decoration(t, Err(NotHex(f.name)))
    case Some(op) => FiledAt(t, reg, f, op)
  }

  /** The four assignments at `op`, in turn; an assignment that raises leaves the earlier ones done. */
  function FiledAt(t: Tables, reg: Registration, f: PyFunction, op: int): Decoration
  {
    match Assign(t.instruct, op, Handler(f))
    case None => Decoration(t, Err(IndexOutOfRange(op)))
    case Some(instruct) =>
      var t1 := t.(instruct := instruct);
      match Assign(t.disasm, op, (reg.name, reg.mode))
      case None => Decoration(t1, Err(IndexOutOfRange(op)))
      case Some(disasm) =>
        var t2 := t1.(disasm := disasm);
        match Assign(t.cycles, op, reg.cycles)
        case None => Decoration(t2, Err(IndexOutOfRange(op)))
        case Some(cycles) =>
          var t3 := t2.(cycles := cycles);
          match Assign(t.extras, op, reg.extracycles)
          case None => Decoration(t3, Err(IndexOutOfRange(op)))
          case Some(extras) => Decoration(t3.(extras := extras), Ok(f))
  }

  /** The four tables all have `n` slots. */
  predicate Sized(t: Tables, n: nat)
  {
    |t.instruct| == n && |t.disasm| == n && |t.cycles| == n && |t.extras| == n
  }

  /**
   * `decorate` succeeds exactly when the name ends in a hexadecimal opcode
   * that indexes every table; it then returns the function it was given.
   * It never changes the length of a table.
   */
  lemma DecoratedSucceeds(t: Tables, reg: Registration, f: PyFunction)
    ensures var d := Decorated(t, reg, f);
      && |d.tables.instruct| == |t.instruct| && |d.tables.disasm| == |t.disasm|
      && |d.tables.cycles| == |t.cycles| && |d.tables.extras| == |t.extras|
      && (d.result.Ok? <==>
            OpcodeOf(f.name).Some? && var op := OpcodeOf(f.name).value;
            Slot(op, |t.instruct|).Some? && Slot(op, |t.disasm|).Some?
            && Slot(op, |t.cycles|).Some? && Slot(op, |t.extras|).Some?)
      && (d.result.Ok? ==> d.result.value == f)
      && (OpcodeOf(f.name).None? ==> d == Decoration(t, Err(NotHex(f.name))))
  {
  }

  /**
   * On tables of equal length a successful `decorate` writes its four
   * values at the opcode's slot and leaves every other slot as it was; a
   * failing one changes nothing.
   */
  lemma DecoratedWritesOneSlot(t: Tables, reg: Registration, f: PyFunction, n: nat)
    requires Sized(t, n)
    ensures var d := Decorated(t, reg, f);
      && Sized(d.tables, n)
      && (d.result.Err? ==> d.tables == t)
      && (d.result.Ok? ==>
            var k := Slot(OpcodeOf(f.name).value, n).value;
            && d.tables.instruct == t.instruct[k := Handler(f)]
            && d.tables.disasm == t.disasm[k := (reg.name, reg.mode)]
            && d.tables.cycles == t.cycles[k := reg.cycles]
            && d.tables.extras == t.extras[k := reg.extracycles])
  {
    DecoratedSucceeds(t, reg, f);
  }

  /** A handler named `inst_0x` and two hex digits lands in the slot of that byte of the 256-slot tables. */
  lemma DecoratedInstName(t: Tables, reg: Registration, b: Byte)
    requires Sized(t, 256)
    ensures var f := PyFunction("inst_0x" + Hex2(b));
      Decorated(t, reg, f) == Decoration(
        Tables(t.instruct[b := Handler(f)], t.disasm[b := (reg.name, reg.mode)], t.cycles[b := reg.cycles], t.extras[b := reg.extracycles]),
        Ok(f))
  {
    OpcodeOfInstName(b);
    DecoratedWritesOneSlot(t, reg, PyFunction("inst_0x" + Hex2(b)), 256);
  }

  // ---------------------------------------------------------------------------
  // A run of registrations

  /** The tables after decorating each function in turn; the first exception stops the run. */
  function Registered(t: Tables, regs: seq<(Registration, PyFunction)>): Decoration
  {
    if regs == [] then Decoration(t, Ok(PyFunction("")))
    else
      var d := Registered(t, regs[..|regs| - 1]);
      if d.result.Err? then d
      else Decorated(d.tables, regs[|regs| - 1].0, regs[|regs| - 1].1)
  }

  /** The slot of `n`-slot tables that `decorate` files `f` under, if its name indexes them. */
  function SlotOf(f: PyFunction, n: nat): (r: Option<nat>)
    ensures r.Some? <==> OpcodeOf(f.name).Some? && Slot(OpcodeOf(f.name).value, n).Some?
    ensures r.Some? ==> r == Slot(OpcodeOf(f.name).value, n) && r.value < n
  {
    match OpcodeOf(f.name)
    case None => None
    case Some(op) => Slot(op, n)
  }

  /** The last registration, if any, whose function lands in slot `k` of `n`-slot tables. */
  function LastFor(regs: seq<(Registration, PyFunction)>, k: nat, n: nat): Option<(Registration, PyFunction)>
  {
    if regs == [] then None
    else
      var last := regs[|regs| - 1];
      if SlotOf(last.1, n) == Some(k) then Some(last) else LastFor(regs[..|regs| - 1], k, n)
  }

  /** Every function of the run names an opcode that indexes `n`-slot tables. */
  predicate Addressable(regs: seq<(Registration, PyFunction)>, n: nat)
  {
    regs == [] || (Addressable(regs[..|regs| - 1], n) && SlotOf(regs[|regs| - 1].1, n).Some?)
  }

  /** What the four tables hold at slot `k`. */
  function EntryAt(t: Tables, k: nat): (Handler, (string, string), int, int)
    requires k < |t.instruct| && k < |t.disasm| && k < |t.cycles| && k < |t.extras|
  {
    (t.instruct[k], t.disasm[k], t.cycles[k], t.extras[k])
  }

  /** What a registration files into its slot. */
  function Filing(rf: (Registration, PyFunction)): (Handler, (string, string), int, int)
  {
    (Handler(rf.1), (rf.0.name, rf.0.mode), rf.0.cycles, rf.0.extracycles)
  }

  /** The tables with `rf` filed into slot `j`. */
  function Filed(t: Tables, j: nat, rf: (Registration, PyFunction)): (r: Tables)
    requires Sized(t, |t.instruct|) && j < |t.instruct|
    ensures Sized(r, |t.instruct|)
  {
    Tables(t.instruct[j := Handler(rf.1)], t.disasm[j := (rf.0.name, rf.0.mode)],
           t.cycles[j := rf.0.cycles], t.extras[j := rf.0.extracycles])
  }

  /** Filing into slot `j` shows at `j` and nowhere else. */
  lemma EntryAtFiled(t: Tables, j: nat, rf: (Registration, PyFunction), k: nat)
    requires Sized(t, |t.instruct|) && j < |t.instruct| && k < |t.instruct|
    ensures EntryAt(Filed(t, j, rf), k) == if j == k then Filing(rf) else EntryAt(t, k)
  {
  }

  /** One more registration whose name indexes the tables files it into its slot. */
  lemma RegisteredLast(t: Tables, regs: seq<(Registration, PyFunction)>, n: nat)
    requires regs != []
    requires Registered(t, regs[..|regs| - 1]).result.Ok? && Sized(Registered(t, regs[..|regs| - 1]).tables, n)
    requires SlotOf(regs[|regs| - 1].1, n).Some?
    ensures Registered(t, regs) == Decoration(
      Filed(Registered(t, regs[..|regs| - 1]).tables, SlotOf(regs[|regs| - 1].1, n).value, regs[|regs| - 1]),
      Ok(regs[|regs| - 1].1))
  {
    var before, last := Registered(t, regs[..|regs| - 1]).tables, regs[|regs| - 1];
    DecoratedSucceeds(before, last.0, last.1);
    DecoratedWritesOneSlot(before, last.0, last.1, n);
  }

  /**
   * A run of registrations whose names all index the tables succeeds; each
   * slot then holds the values of the last registration filed under it, and
   * a slot nobody registered keeps its initial values.
   */
  lemma {:induction false} LastRegistrationWins(t: Tables, regs: seq<(Registration, PyFunction)>, n: nat, k: nat)
    requires Sized(t, n) && Addressable(regs, n) && k < n
    ensures Registered(t, regs).result.Ok? && Sized(Registered(t, regs).tables, n)
    ensures EntryAt(Registered(t, regs).tables, k)
         == if LastFor(regs, k, n).Some? then Filing(LastFor(regs, k, n).value) else EntryAt(t, k)
  {
    if regs != [] {
      var prefix, last := regs[..|regs| - 1], regs[|regs| - 1];
      LastRegistrationWins(t, prefix, n, k);
      RegisteredLast(t, regs, n);
      EntryAtFiled(Registered(t, prefix).tables, SlotOf(last.1, n).value, last, k);
    }
  }

  /** Starting from the module's initial lists, a slot no registration lands in keeps its initial values. */
  lemma UnregisteredSlotKeepsInitial(regs: seq<(Registration, PyFunction)>, k: nat)
    requires Addressable(regs, 256) && k < 256 && LastFor(regs, k, 256).None?
    ensures Registered(InitialTables, regs).result.Ok? && Sized(Registered(InitialTables, regs).tables, 256)
    ensures EntryAt(Registered(InitialTables, regs).tables, k) == (NoHandler, ("???", "imp"), 0, 0)
  {
    LastRegistrationWins(InitialTables, regs, 256, k);
  }

  /** No two registrations of the run land in the same slot of `n`-slot tables. */
  predicate DistinctSlots(regs: seq<(Registration, PyFunction)>, n: nat)
  {
    forall i, j :: 0 <= i < j < |regs| ==> SlotOf(regs[i].1, n) != SlotOf(regs[j].1, n)
  }

  /**
   * When no slot is registered twice, the registration that lands in slot
   * `k` is the one `LastFor` finds, and there is none when nobody lands there.
   */
  lemma {:induction false} LastForDistinct(regs: seq<(Registration, PyFunction)>, n: nat, k: nat)
    requires DistinctSlots(regs, n)
    ensures forall i :: 0 <= i < |regs| && SlotOf(regs[i].1, n) == Some(k) ==> LastFor(regs, k, n) == Some(regs[i])
    ensures (forall i :: 0 <= i < |regs| ==> SlotOf(regs[i].1, n) != Some(k)) ==> LastFor(regs, k, n).None?
  {
    if regs != [] {
      var prefix := regs[..|regs| - 1];
      assert DistinctSlots(prefix, n) by {
        forall i, j | 0 <= i < j < |prefix| ensures SlotOf(prefix[i].1, n) != SlotOf(prefix[j].1, n) {
          assert prefix[i] == regs[i] && prefix[j] == regs[j];
        }
      }
      LastForDistinct(prefix, n, k);
      forall i | 0 <= i < |prefix| ensures prefix[i] == regs[i] { }
    }
  }

  // ---------------------------------------------------------------------------
  // The tables in place

  /**
   * The closure `make_instruction_decorator(instruct, disasm, allcycles,
   * allextras)` builds: it keeps the four lists it was given and files
   * every decorated function into them.
   */
  class InstructionDecorator {
    const instruct: array<Handler>
    const disasm: array<(string, string)>
    const allcycles: array<int>
    const allextras: array<int>

    /** `make_instruction_decorator`. */
    constructor(instruct: array<Handler>, disasm: array<(string, string)>, allcycles: array<int>, allextras: array<int>)
      ensures this.instruct == instruct && this.disasm == disasm
      ensures this.allcycles == allcycles && this.allextras == allextras
    {
      this.instruct := instruct;
      this.disasm := disasm;
      this.allcycles := allcycles;
      this.allextras := allextras;
    }

    /** The current contents of the four lists. */
    function Contents(): Tables
      reads instruct, disasm, allcycles, allextras
    {
      Tables(instruct[..], disasm[..], allcycles[..], allextras[..])
    }

    /**
     * `instruction(...)(f)`: parse the opcode from the function's name and
     * assign the four lists at it, in turn. When the cycle and extra-cycle
     * lists are one list, the extra cycles are what it keeps.
     */
    method Decorate(reg: Registration, f: PyFunction) returns (r: Result<PyFunction, DecorateError>)
      modifies instruct, disasm, allcycles, allextras
      ensures var d := Decorated(old(Contents()), reg, f);
        && r == d.result
        && instruct[..] == d.tables.instruct && disasm[..] == d.tables.disasm && allextras[..] == d.tables.extras
        && (allcycles != allextras ==> allcycles[..] == d.tables.cycles)
    {
      var opcode := OpcodeOf(f.name);
      if opcode.None? {
        return Err(NotHex(f.name));
      }
      var op := opcode.value;
      var stored := Store(instruct, op, Handler(f));
      if !stored {
        return Err(IndexOutOfRange(op));
      }
      ghost var instruct' := instruct[..];
      stored := Store(disasm, op, (reg.name, reg.mode));
      assert instruct[..] == instruct';
      if !stored {
        return Err(IndexOutOfRange(op));
      }
      ghost var disasm' := disasm[..];
      stored := Store(allcycles, op, reg.cycles);
      assert instruct[..] == instruct' && disasm[..] == disasm';
      if !stored {
        return Err(IndexOutOfRange(op));
      }
      ghost var cycles' := allcycles[..];
      stored := Store(allextras, op, reg.extracycles);
      assert instruct[..] == instruct' && disasm[..] == disasm';
      assert allcycles != allextras ==> allcycles[..] == cycles';
      if !stored {
        return Err(IndexOutOfRange(op));
      }
      return Ok(f);
    }
  }

  /** `a[k] = v` on a Python list held in an array; `false` stands for the IndexError, which leaves `a` as it was. */
  method Store<T>(a: array<T>, k: int, v: T) returns (stored: bool)
    modifies a
    ensures stored == Assign(old(a[..]), k, v).Some?
    ensures a[..] == if stored then Assign(old(a[..]), k, v).value else old(a[..])
  {
    var slot := Slot(k, a.Length);
    if slot.None? {
      return false;
    }
    a[slot.value] := v;
    return true;
  }

  /** The four tables a handler slot, a disassembly pair and two cycle counts start from. */
  const InitialTables: Tables := Tables(seq(256, _ => NoHandler), seq(256, _ => ("???", "imp")), seq(256, _ => 0), seq(256, _ => 0))

  /** The module-level lists `instruct`, `cycletime`, `extracycles`, `disassemble` and the module's `instruction`. */
  method ModuleDecorator() returns (d: InstructionDecorator)
    ensures fresh(d) && fresh(d.instruct) && fresh(d.disasm) && fresh(d.allcycles) && fresh(d.allextras)
    ensures d.allcycles != d.allextras
    ensures d.Contents() == InitialTables
  {
    var instruct := new Handler[256](_ => NoHandler);
    var cycletime := new int[256](_ => 0);
    var extracycles := new int[256](_ => 0);
    var disassemble := new (string, string)[256](_ => ("???", "imp"));
    d := new InstructionDecorator(instruct, disassemble, cycletime, extracycles);
  }
}
