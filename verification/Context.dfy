/** The `context` dashboard command: the register, code, stack and backtrace
    views and the command that selects and concatenates them.

    Everything the command reads from the debugger at a stop is a `Snapshot`;
    every routine of another module it calls (colouring, banners, pointer-chain
    formatting, symbol lookup, disassembly colouring, telescope) is a field of
    `Host`. Each view is a method that builds its lines step by step as the
    command does, proved equal to a specification function; the properties of
    the views are lemmas about those functions. */
module Context {
  import opened Wrappers
  import opened Strings

  /** One decoded instruction; only its address matters to the layout. */
  datatype Instruction = Instruction(address: nat, mnemonic: string)

  /** One call frame: its program counter and its name, when the debugger has one. */
  datatype Frame = Frame(pc: nat, name: Option<string>)

  /** The state of the stopped process that the views read. */
  datatype Snapshot = Snapshot(
    gpr: seq<string>,              // general-purpose register names of the architecture
    framePointer: Option<string>,  // frame-pointer register name, if the architecture has one
    stackPointer: Option<string>,  // stack-pointer register name, if the architecture has one
    registers: string -> nat,      // register name to current value
    pc: nat,                       // program counter
    sp: nat,                       // stack pointer
    window: seq<Instruction>,      // instructions decoded near pc, in decoding order
    frames: seq<Frame>)            // the selected frame, then each older() in turn

  /** Routines of other modules that the views call and whose output they only
      place: they are inputs of the model. */
  datatype Host = Host(
    legend: string,                 // the colour key printed first
    banner: string -> string,       // a view's title line, coloured blue
    bold: string -> string,
    formatChain: nat -> string,     // a value and the pointer chain it starts
    symbol: nat -> string,          // symbol at an address, "" when there is none
    colorAsm: Instruction -> string,
    addrsz: nat -> string,          // an address at the width of a machine word
    telescope: nat -> seq<string>)  // the stack slots shown from an address

  /** The exceptions that abort the command before anything is printed. */
  datatype Fault =
    | EmptyToken   // `a[0]` on an empty selector token
    | EmptyWindow  // `max` over the symbols of an empty instruction window

  function Min(a: nat, b: nat): nat { if a < b then a else b }

  // ---------------------------------------------------------------- registers

  /** Lifts names to present slots. */
  function AllPresent(names: seq<string>): (slots: seq<Option<string>>)
    ensures |slots| == |names|
    ensures forall i :: 0 <= i < |names| ==> slots[i] == Some(names[i])
  {
    seq(|names|, i requires 0 <= i < |names| => Some(names[i]))
  }

  /** The slots the register view walks: the general-purpose registers, then
      the frame pointer, the stack pointer and the program counter. */
  function RegisterSlots(s: Snapshot): seq<Option<string>>
  {
    AllPresent(s.gpr) + [s.framePointer, s.stackPointer, Some("$pc")]
  }

  /** The names of the present slots, in slot order. */
  function Present(slots: seq<Option<string>>): seq<string>
  {
    if slots == [] then []
    else
      var last := slots[|slots| - 1];
      Present(slots[..|slots| - 1]) + (if last.Some? then [last.value] else [])
  }

  /** The contribution of an optional slot: nothing or its name. */
  function Names(slot: Option<string>): seq<string>
  {
    if slot.Some? then [slot.value] else []
  }

  /** The register name as shown: at least four columns, upper-cased. */
  function RegName(reg: string): string
  {
    Upper(LJust(reg, 4))
  }

  function RegLine(reg: string, s: Snapshot, h: Host): string
  {
    h.bold(RegName(reg)) + " " + h.formatChain(s.registers(reg))
  }

  /** One line per register name, in order. */
  function RegLines(names: seq<string>, s: Snapshot, h: Host): (lines: seq<string>)
    ensures |lines| == |names|
  {
    if names == [] then []
    else RegLines(names[..|names| - 1], s, h) + [RegLine(names[|names| - 1], s, h)]
  }

  lemma {:induction false} RegLinesAt(names: seq<string>, s: Snapshot, h: Host, k: nat)
    requires k < |names|
    ensures RegLines(names, s, h)[k] == RegLine(names[k], s, h)
  {
    if k < |names| - 1 {
      RegLinesAt(names[..|names| - 1], s, h, k);
    }
  }

  /** The register view: a banner, then one line per present register. */
  function RegsView(s: Snapshot, h: Host): seq<string>
  {
    [h.banner("registers")] + RegLines(Present(RegisterSlots(s)), s, h)
  }

  /** Walking one more slot adds the line of its register, if it holds one. */
  lemma RegsStep(slots: seq<Option<string>>, k: nat, s: Snapshot, h: Host)
    requires k < |slots|
    ensures RegLines(Present(slots[..k + 1]), s, h)
         == RegLines(Present(slots[..k]), s, h)
            + (if slots[k].Some? then [RegLine(slots[k].value, s, h)] else [])
  {
    var prefix := slots[..k + 1];
    assert prefix[..|prefix| - 1] == slots[..k];
    var shown := Present(slots[..k]);
    if slots[k].Some? {
      var grown := shown + [slots[k].value];
      assert Present(prefix) == grown;
      assert grown[..|grown| - 1] == shown;
    } else {
      assert Present(prefix) == shown;
    }
  }

  /** Formats one line per register held by a slot, skipping empty slots. */
  method FormatRegisters(slots: seq<Option<string>>, s: Snapshot, h: Host) returns (lines: seq<string>)
    ensures lines == RegLines(Present(slots), s, h)
  {
    lines := [];
    for k := 0 to |slots|
      invariant lines == RegLines(Present(slots[..k]), s, h)
    {
      RegsStep(slots, k, s, h);
      if slots[k].Some? {
        var reg := slots[k].value;
        var value := s.registers(reg);
        var regname := h.bold(RegName(reg));
        lines := lines + [regname + " " + h.formatChain(value)];
      }
    }
    assert slots[..|slots|] == slots;
  }

  method ContextRegs(s: Snapshot, h: Host) returns (result: seq<string>)
    ensures result == RegsView(s, h)
  {
    result := [h.banner("registers")];
    var lines := FormatRegisters(RegisterSlots(s), s, h);
    result := result + lines;
  }

  lemma {:induction false} PresentAppend(a: seq<Option<string>>, b: seq<Option<string>>)
    ensures Present(a + b) == Present(a) + Present(b)
    decreases |b|
  {
    if b == [] {
      assert a + b == a;
    } else {
      var b' := b[..|b| - 1];
      assert (a + b)[..|a + b| - 1] == a + b';
      PresentAppend(a, b');
    }
  }

  lemma {:induction false} PresentAllPresent(names: seq<string>)
    ensures Present(AllPresent(names)) == names
  {
    if names != [] {
      var init := names[..|names| - 1];
      assert AllPresent(names)[..|names| - 1] == AllPresent(init);
      PresentAllPresent(init);
      assert names == init + [names[|names| - 1]];
    }
  }

  /** A name is shown exactly when some slot holds it. */
  lemma {:induction false} PresentMember(slots: seq<Option<string>>, x: string)
    ensures x in Present(slots) <==> Some(x) in slots
  {
    if slots != [] {
      var init := slots[..|slots| - 1];
      PresentMember(init, x);
      assert slots == init + [slots[|slots| - 1]];
    }
  }

  lemma PresentSingle(slot: Option<string>)
    ensures Present([slot]) == Names(slot)
  {
    assert [slot][..0] == [];
  }

  /** The register view shows the general-purpose registers, then the frame
      pointer and the stack pointer when the architecture names them, then
      the program counter, in that order. */
  lemma RegisterOrder(s: Snapshot)
    ensures Present(RegisterSlots(s))
         == s.gpr + Names(s.framePointer) + Names(s.stackPointer) + ["$pc"]
  {
    var fp, sp, pc := s.framePointer, s.stackPointer, Some("$pc");
    PresentAppend(AllPresent(s.gpr), [fp, sp, pc]);
    PresentAllPresent(s.gpr);
    assert [fp, sp, pc] == [fp] + [sp, pc];
    assert [sp, pc] == [sp] + [pc];
    PresentAppend([fp], [sp, pc]);
    PresentAppend([sp], [pc]);
    PresentSingle(fp);
    PresentSingle(sp);
    PresentSingle(pc);
  }

  /** Each register line starts with the name left-justified to four columns
      and upper-cased. */
  lemma RegNameLayout(reg: string)
    ensures |RegName(reg)| == if |reg| < 4 then 4 else |reg|
    ensures RegName(reg)[..|reg|] == Upper(reg)
    ensures forall i :: |reg| <= i < |RegName(reg)| ==> RegName(reg)[i] == ' '
  {
    var padded := LJust(reg, 4);
    forall i | 0 <= i < |reg| ensures RegName(reg)[i] == Upper(reg)[i] {
      assert padded[..|reg|][i] == reg[i];
    }
  }

  /** The register view is a banner and one line per register the
      architecture names, in the order general-purpose, frame, stack, pc. */
  lemma RegsViewLines(s: Snapshot, h: Host)
    ensures var names := s.gpr + Names(s.framePointer) + Names(s.stackPointer) + ["$pc"];
      && |RegsView(s, h)| == 1 + |names|
      && RegsView(s, h)[0] == h.banner("registers")
      && forall k :: 0 <= k < |names| ==> RegsView(s, h)[1 + k] == RegLine(names[k], s, h)
  {
    RegisterOrder(s);
    var names := s.gpr + Names(s.framePointer) + Names(s.stackPointer) + ["$pc"];
    forall k | 0 <= k < |names| ensures RegsView(s, h)[1 + k] == RegLine(names[k], s, h) {
      RegLinesAt(names, s, h, k);
    }
  }

  // --------------------------------------------------------------------- code

  /** The code view always fills this many rows besides its banner when the
      window is no longer. */
  const CodeRows: nat := 11

  /** The number of blank rows added above the instructions. */
  function PadCount(n: nat): nat
  {
    if n < CodeRows then CodeRows - n else 0
  }

  function Blank(n: nat): (rows: seq<string>)
    ensures |rows| == n && forall i :: 0 <= i < n ==> rows[i] == ""
  {
    seq(n, _ => "")
  }

  /** A symbol as annotated: `<name> `, or nothing when there is no symbol. */
  function Annotation(sym: string): (a: string)
    ensures a == "" <==> sym == ""
    ensures sym != "" ==> |a| == |sym| + 3 && a[0] == '<' && a[1..|sym| + 1] == sym && a[|sym| + 1..] == "> "
  {
    if sym == "" then "" else "<" + sym + "> "
  }

  /** The annotation of every instruction of the window, in order. */
  function Annotations(window: seq<Instruction>, h: Host): (syms: seq<string>)
    ensures |syms| == |window|
  {
    if window == [] then []
    else Annotations(window[..|window| - 1], h) + [Annotation(h.symbol(window[|window| - 1].address))]
  }

  lemma {:induction false} AnnotationsAt(window: seq<Instruction>, h: Host, i: nat)
    requires i < |window|
    ensures Annotations(window, h)[i] == Annotation(h.symbol(window[i].address))
  {
    if i < |window| - 1 {
      AnnotationsAt(window[..|window| - 1], h, i);
    }
  }

  /** The length of the longest string. */
  function Longest(syms: seq<string>): (m: nat)
    requires |syms| > 0
    ensures forall i :: 0 <= i < |syms| ==> |syms[i]| <= m
    ensures exists i :: 0 <= i < |syms| && |syms[i]| == m
  {
    if |syms| == 1 then |syms[0]|
    else
      var m' := Longest(syms[..|syms| - 1]);
      var last := |syms[|syms| - 1]|;
      if m' < last then last else m'
  }

  /** Every string right-padded to `width`. */
  function PadAll(syms: seq<string>, width: nat): (padded: seq<string>)
    ensures |padded| == |syms|
  {
    if syms == [] then [] else PadAll(syms[..|syms| - 1], width) + [LJust(syms[|syms| - 1], width)]
  }

  lemma {:induction false} PadAllAt(syms: seq<string>, width: nat, i: nat)
    requires i < |syms|
    ensures PadAll(syms, width)[i] == LJust(syms[i], width)
  {
    if i < |syms| - 1 {
      PadAllAt(syms[..|syms| - 1], width, i);
    }
  }

  /** Every string right-padded to the longest one. */
  function Aligned(syms: seq<string>): (padded: seq<string>)
    requires |syms| > 0
    ensures |padded| == |syms|
  {
    PadAll(syms, Longest(syms))
  }

  /** After alignment every annotation has the common width of the longest
      one, keeps its text at the front and is blank after it. */
  lemma AlignedUniform(syms: seq<string>, i: nat)
    requires i < |syms|
    ensures |Aligned(syms)[i]| == Longest(syms)
    ensures Aligned(syms)[i][..|syms[i]|] == syms[i]
    ensures forall j :: |syms[i]| <= j < Longest(syms) ==> Aligned(syms)[i][j] == ' '
  {
    PadAllAt(syms, Longest(syms), i);
  }

  /** When no instruction of the window has a symbol, the annotation column
      has width zero and every row shows the address right after the marker
      and its blank. */
  lemma NoSymbolsNoColumn(s: Snapshot, h: Host)
    requires |s.window| > 0
    requires forall i :: 0 <= i < |s.window| ==> h.symbol(s.window[i].address) == ""
    ensures Longest(Annotations(s.window, h)) == 0
    ensures forall i :: 0 <= i < |s.window| ==> Aligned(Annotations(s.window, h))[i] == ""
  {
    var anns := Annotations(s.window, h);
    forall i | 0 <= i < |anns| ensures anns[i] == "" {
      AnnotationsAt(s.window, h, i);
    }
    forall i | 0 <= i < |anns| ensures Aligned(anns)[i] == "" {
      PadAllAt(anns, Longest(anns), i);
    }
  }

  /** The current-instruction marker. */
  function Marker(address: nat, pc: nat): string
  {
    if address == pc then " =>" else "   "
  }

  function CodeLine(ins: Instruction, sym: string, pc: nat, h: Host): string
  {
    Marker(ins.address, pc) + " " + (sym + Hex(ins.address)) + " " + h.colorAsm(ins)
  }

  /** One row per instruction of `w`, with the matching annotation of `syms`. */
  function Rows(w: seq<Instruction>, syms: seq<string>, pc: nat, h: Host): (rows: seq<string>)
    requires |syms| == |w|
    ensures |rows| == |w|
  {
    if w == [] then []
    else Rows(w[..|w| - 1], syms[..|w| - 1], pc, h) + [CodeLine(w[|w| - 1], syms[|w| - 1], pc, h)]
  }

  lemma {:induction false} RowsAt(w: seq<Instruction>, syms: seq<string>, pc: nat, h: Host, i: nat)
    requires |syms| == |w| && i < |w|
    ensures Rows(w, syms, pc, h)[i] == CodeLine(w[i], syms[i], pc, h)
  {
    if i < |w| - 1 {
      RowsAt(w[..|w| - 1], syms[..|w| - 1], pc, h, i);
    }
  }

  /** The instruction rows of the code view, in window order. */
  function InstructionRows(s: Snapshot, h: Host): (rows: seq<string>)
    requires |s.window| > 0
    ensures |rows| == |s.window|
  {
    Rows(s.window, Aligned(Annotations(s.window, h)), s.pc, h)
  }

  lemma InstructionRowAt(s: Snapshot, h: Host, i: nat)
    requires i < |s.window|
    ensures var anns := Annotations(s.window, h);
      InstructionRows(s, h)[i] == CodeLine(s.window[i], LJust(anns[i], Longest(anns)), s.pc, h)
  {
    var anns := Annotations(s.window, h);
    RowsAt(s.window, Aligned(anns), s.pc, h, i);
    PadAllAt(anns, Longest(anns), i);
  }

  /** The code view: a banner, blank rows up to `CodeRows`, then one row per
      instruction. Raises on an empty window. */
  function CodeView(s: Snapshot, h: Host): Result<seq<string>, Fault>
  {
    if |s.window| == 0 then Err(EmptyWindow)
    else Ok([h.banner("code")] + Blank(PadCount(|s.window|)) + InstructionRows(s, h))
  }

  lemma AnnotationsStep(window: seq<Instruction>, h: Host, k: nat)
    requires k < |window|
    ensures Annotations(window[..k + 1], h)
         == Annotations(window[..k], h) + [Annotation(h.symbol(window[k].address))]
  {
    assert window[..k + 1][..k] == window[..k];
  }

  lemma PadStep(annotations: seq<string>, symbols: seq<string>, longest: nat, k: nat)
    requires k < |annotations|
    requires symbols == PadAll(annotations[..k], longest) + annotations[k..]
    ensures k < |symbols| && symbols[k] == annotations[k]
    ensures symbols[k := LJust(symbols[k], longest)]
         == PadAll(annotations[..k + 1], longest) + annotations[k + 1..]
  {
    assert annotations[..k + 1][..k] == annotations[..k];
    assert annotations[k..] == [annotations[k]] + annotations[k + 1..];
  }

  lemma RowsStep(w: seq<Instruction>, syms: seq<string>, pc: nat, h: Host, k: nat)
    requires |syms| == |w| && k < |w|
    ensures Rows(w[..k + 1], syms[..k + 1], pc, h)
         == Rows(w[..k], syms[..k], pc, h) + [CodeLine(w[k], syms[k], pc, h)]
  {
    assert w[..k + 1][..k] == w[..k];
    assert syms[..k + 1][..k] == syms[..k];
  }

  /** Looks up the annotation of every instruction, in window order. */
  method FindSymbols(instructions: seq<Instruction>, h: Host) returns (symbols: seq<string>)
    ensures symbols == Annotations(instructions, h)
  {
    symbols := [];
    for k := 0 to |instructions|
      invariant symbols == Annotations(instructions[..k], h)
    {
      AnnotationsStep(instructions, h, k);
      var symbol := h.symbol(instructions[k].address);
      if symbol != "" {
        symbol := "<" + symbol + "> ";
      }
      symbols := symbols + [symbol];
    }
    assert instructions[..|instructions|] == instructions;
  }

  /** Right-pads every annotation to `longest`, overwriting it in place. */
  method PadSymbols(symbols: seq<string>, longest: nat) returns (padded: seq<string>)
    ensures padded == PadAll(symbols, longest)
  {
    padded := symbols;
    for k := 0 to |symbols|
      invariant padded == PadAll(symbols[..k], longest) + symbols[k..]
    {
      PadStep(symbols, padded, longest, k);
      padded := padded[k := LJust(padded[k], longest)];
    }
    assert symbols[..|symbols|] == symbols;
  }

  /** Formats one row per instruction, in window order. */
  method FormatRows(instructions: seq<Instruction>, symbols: seq<string>, pc: nat, h: Host)
    returns (rows: seq<string>)
    requires |symbols| == |instructions|
    ensures rows == Rows(instructions, symbols, pc, h)
  {
    rows := [];
    for k := 0 to |instructions|
      invariant rows == Rows(instructions[..k], symbols[..k], pc, h)
    {
      RowsStep(instructions, symbols, pc, h, k);
      var ins := instructions[k];
      var asm := h.colorAsm(ins);
      var prefix := if ins.address == pc then " =>" else "   ";
      var line := prefix + " " + (symbols[k] + Hex(ins.address)) + " " + asm;
      assert line == CodeLine(ins, symbols[k], pc, h);
      rows := rows + [line];
    }
    assert instructions[..|instructions|] == instructions;
    assert symbols[..|instructions|] == symbols;
  }

  method ContextCode(s: Snapshot, h: Host) returns (r: Result<seq<string>, Fault>)
    ensures r == CodeView(s, h)
  {
    var result := [h.banner("code")];
    var pc := s.pc;
    var instructions := s.window;
    var n := |instructions|;

    // Blank rows keep the later views at the same place on the screen.
    var i := 0;
    while i < CodeRows - n
      invariant 0 <= i <= PadCount(n)
      invariant result == [h.banner("code")] + Blank(i)
    {
      assert Blank(i + 1) == Blank(i) + [""];
      result := result + [""];
      i := i + 1;
    }

    var symbols := FindSymbols(instructions, h);
    if n == 0 {
      return Err(EmptyWindow);
    }
    var longest := Longest(symbols);
    symbols := PadSymbols(symbols, longest);
    assert symbols == Aligned(Annotations(s.window, h));
    var rows := FormatRows(instructions, symbols, pc, h);
    assert rows == InstructionRows(s, h);
    assert result == [h.banner("code")] + Blank(PadCount(|s.window|));
    result := result + rows;
    r := Ok(result);
  }

  /** Where the parts of a banner, `n` blank rows and further rows lie. */
  lemma BannerPadRows(banner: string, n: nat, rows: seq<string>)
    ensures var lines := [banner] + Blank(n) + rows;
      && |lines| == 1 + n + |rows|
      && lines[0] == banner
      && (forall k :: 1 <= k <= n ==> lines[k] == "")
      && lines[1 + n..] == rows
  {
    var lines := [banner] + Blank(n) + rows;
    forall k | 1 <= k <= n ensures lines[k] == "" {
      assert lines[k] == Blank(n)[k - 1];
    }
  }

  /** The code view has the banner, `max(0, 11 - n)` blank rows and one row per
      instruction, so it never takes fewer than twelve rows. */
  lemma CodeViewRows(s: Snapshot, h: Host)
    requires |s.window| > 0
    ensures CodeView(s, h).Ok?
    ensures var lines := CodeView(s, h).value; var n := |s.window|;
      && |lines| == 1 + (if n < 11 then 11 - n else 0) + n
      && |lines| >= 12
      && lines[0] == h.banner("code")
      && (forall k :: 1 <= k <= PadCount(n) ==> lines[k] == "")
      && lines[1 + PadCount(n)..] == InstructionRows(s, h)
  {
    BannerPadRows(h.banner("code"), PadCount(|s.window|), InstructionRows(s, h));
  }

  /** Is a row marked as the current instruction? */
  predicate Marked(line: string)
  {
    |line| >= 3 && line[..3] == " =>"
  }

  lemma LinePrefix(ins: Instruction, sym: string, pc: nat, h: Host)
    ensures |CodeLine(ins, sym, pc, h)| >= 3
    ensures CodeLine(ins, sym, pc, h)[..3] == Marker(ins.address, pc)
  {
    var m := Marker(ins.address, pc);
    assert CodeLine(ins, sym, pc, h) == m + (" " + (sym + Hex(ins.address)) + " " + h.colorAsm(ins));
  }

  /** Instruction row `i` begins with the marker exactly when the instruction
      is at `pc`, and with three blanks otherwise. */
  lemma CodeMarker(s: Snapshot, h: Host, i: nat)
    requires i < |s.window|
    ensures var row := InstructionRows(s, h)[i];
      && |row| >= 3
      && (row[..3] == " =>" <==> s.window[i].address == s.pc)
      && (row[..3] == "   " <==> s.window[i].address != s.pc)
  {
    var anns := Annotations(s.window, h);
    InstructionRowAt(s, h, i);
    LinePrefix(s.window[i], LJust(anns[i], Longest(anns)), s.pc, h);
  }

  /** Number of marked rows. */
  function CountMarked(rows: seq<string>): nat
  {
    if rows == [] then 0 else CountMarked(rows[1..]) + (if Marked(rows[0]) then 1 else 0)
  }

  /** Number of instructions at an address. */
  function CountAt(window: seq<Instruction>, pc: nat): nat
  {
    if window == [] then 0 else CountAt(window[1..], pc) + (if window[0].address == pc then 1 else 0)
  }

  lemma {:induction false} CountMarkedMatches(rows: seq<string>, window: seq<Instruction>, pc: nat)
    requires |rows| == |window|
    requires forall i :: 0 <= i < |rows| ==> (Marked(rows[i]) <==> window[i].address == pc)
    ensures CountMarked(rows) == CountAt(window, pc)
  {
    if rows != [] {
      assert Marked(rows[0]) <==> window[0].address == pc;
      CountMarkedMatches(rows[1..], window[1..], pc);
    }
  }

  /** There are as many marked rows as instructions at `pc`: one when `pc`
      appears once in the window, none when it is not in the window. */
  lemma MarkedRows(s: Snapshot, h: Host)
    requires |s.window| > 0
    ensures CountMarked(InstructionRows(s, h)) == CountAt(s.window, s.pc)
  {
    var rows := InstructionRows(s, h);
    forall i | 0 <= i < |rows| ensures Marked(rows[i]) <==> s.window[i].address == s.pc {
      CodeMarker(s, h, i);
    }
    CountMarkedMatches(rows, s.window, s.pc);
  }

  /** The column layout of an instruction row: a blank after the marker, the
      annotation `ann` from column 4, blanks up to column `4 + L`, and the
      address text `addr` from there on. */
  predicate OnGrid(row: string, ann: string, L: nat, addr: string)
  {
    && |ann| <= L
    && |row| >= 4 + L + |addr|
    && row[3] == ' '
    && row[4..4 + |ann|] == ann
    && row[4 + |ann|..4 + L] == Spaces(L - |ann|)
    && row[4 + L..4 + L + |addr|] == addr
  }

  /** A row made of a four-column lead ending in a blank, an annotation padded
      to `L`, an address text and anything after it lies on the grid. */
  lemma GridLayout(row: string, lead: string, ann: string, L: nat, addr: string, rest: string)
    requires |lead| == 4 && lead[3] == ' ' && |ann| <= L
    requires row == lead + (ann + Spaces(L - |ann|) + addr) + rest
    ensures OnGrid(row, ann, L, addr)
  {
    var pad := Spaces(L - |ann|);
    var tail := pad + (addr + rest);
    assert row == lead + (ann + tail);
    assert row[3] == lead[3];
    var body := row[4..];
    assert body == ann + tail;
    assert row[4..4 + |ann|] == body[..|ann|] == ann;
    assert row[4 + |ann|..] == tail;
    assert row[4 + |ann|..4 + L] == tail[..|pad|] == pad;
    assert row[4 + L..] == tail[|pad|..] == addr + rest;
    assert row[4 + L..4 + L + |addr|] == (addr + rest)[..|addr|] == addr;
  }

  /** A code row whose annotation is padded to width `L` lies on the grid. */
  lemma PaddedFields(row: string, ins: Instruction, ann: string, L: nat, pc: nat, h: Host)
    requires |ann| <= L
    requires row == CodeLine(ins, LJust(ann, L), pc, h)
    ensures OnGrid(row, ann, L, Hex(ins.address))
  {
    var pad := Spaces(L - |ann|);
    assert LJust(ann, L) == ann + pad by {
      if |ann| == L {
        assert ann + pad == ann;
      }
    }
    var lead := Marker(ins.address, pc) + " ";
    GridLayout(row, lead, ann, L, Hex(ins.address), " " + h.colorAsm(ins));
  }

  /** Every instruction row is laid out on the same grid: after the marker
      and a blank comes the row's annotation, blanks up to the width of the
      longest annotation, and then, at the same column in every row, the
      hexadecimal address. */
  lemma CodeColumns(s: Snapshot, h: Host, i: nat)
    requires i < |s.window|
    ensures var anns := Annotations(s.window, h);
      OnGrid(InstructionRows(s, h)[i], anns[i], Longest(anns), Hex(s.window[i].address))
  {
    var anns := Annotations(s.window, h);
    InstructionRowAt(s, h, i);
    PaddedFields(InstructionRows(s, h)[i], s.window[i], anns[i], Longest(anns), s.pc, h);
  }

  // -------------------------------------------------------------------- stack

  /** The stack view: a banner, then the telescope of the stack pointer. */
  function StackView(s: Snapshot, h: Host): seq<string>
  {
    [h.banner("stack")] + h.telescope(s.sp)
  }

  method ContextStack(s: Snapshot, h: Host) returns (result: seq<string>)
    ensures result == StackView(s, h)
  {
    result := [h.banner("stack")];
    var telescope := h.telescope(s.sp);
    result := result + telescope;
  }

  // ---------------------------------------------------------------- backtrace

  /** At most this many frames are shown. */
  const MaxFrames: nat := 10

  /** A frame's name, or `???` when the debugger gives none or an empty one. */
  function FrameName(f: Frame): string
  {
    if f.name.Some? && f.name.value != "" then f.name.value else "???"
  }

  function FrameLine(i: nat, f: Frame, h: Host): string
  {
    "f " + NatToString(i) + " " + h.addrsz(f.pc) + " " + FrameName(f)
  }

  /** Following the chain from `chain[0]` outwards, one line per frame,
      numbered from `index`, for at most `budget` frames. */
  function Walk(chain: seq<Frame>, index: nat, budget: nat, h: Host): seq<string>
    decreases budget
  {
    if budget == 0 || chain == [] then []
    else [FrameLine(index, chain[0], h)] + Walk(chain[1..], index + 1, budget - 1, h)
  }

  /** The walk shows the first `min(budget, |chain|)` frames, numbered
      consecutively from `index`, and nothing after the chain ends. */
  lemma {:induction false} WalkShape(chain: seq<Frame>, index: nat, budget: nat, h: Host)
    ensures |Walk(chain, index, budget, h)| == Min(budget, |chain|)
    ensures forall j :: 0 <= j < Min(budget, |chain|) ==>
      Walk(chain, index, budget, h)[j] == FrameLine(index + j, chain[j], h)
    decreases budget
  {
    if budget != 0 && chain != [] {
      var rest := Walk(chain[1..], index + 1, budget - 1, h);
      WalkShape(chain[1..], index + 1, budget - 1, h);
      var w := Walk(chain, index, budget, h);
      assert w == [FrameLine(index, chain[0], h)] + rest;
      forall j | 0 <= j < Min(budget, |chain|) ensures w[j] == FrameLine(index + j, chain[j], h) {
        if j > 0 {
          assert w[j] == rest[j - 1];
          assert chain[1..][j - 1] == chain[j];
        }
      }
    }
  }

  /** The backtrace view: a banner, then the walk from the selected frame. */
  function BacktraceView(s: Snapshot, h: Host): seq<string>
  {
    [h.banner("backtrace")] + Walk(s.frames, 0, MaxFrames, h)
  }

  /** One more step of budget adds the next frame's line, if there is one. */
  lemma {:induction false} WalkStep(chain: seq<Frame>, index: nat, budget: nat, h: Host)
    ensures budget < |chain| ==>
      Walk(chain, index, budget + 1, h) == Walk(chain, index, budget, h) + [FrameLine(index + budget, chain[budget], h)]
    ensures budget >= |chain| ==> Walk(chain, index, budget + 1, h) == Walk(chain, index, budget, h)
    decreases budget
  {
    if budget > 0 && chain != [] {
      WalkStep(chain[1..], index + 1, budget - 1, h);
    }
  }

  method ContextBacktrace(s: Snapshot, h: Host) returns (result: seq<string>)
    ensures result == BacktraceView(s, h)
  {
    result := [h.banner("backtrace")];
    var depth := 0;
    var frame := if |s.frames| > 0 then Some(s.frames[0]) else None;
    for i := 0 to MaxFrames
      invariant depth == Min(i, |s.frames|)
      invariant frame == if depth < |s.frames| then Some(s.frames[depth]) else None
      invariant result == [h.banner("backtrace")] + Walk(s.frames, 0, i, h)
    {
      WalkStep(s.frames, 0, i, h);
      if frame.Some? {
        var f := frame.value;
        var name := if f.name.Some? && f.name.value != "" then f.name.value else "???";
        var line := "f " + NatToString(i) + " " + h.addrsz(f.pc) + " " + name;
        assert line == FrameLine(i, f, h);
        result := result + [line];
        depth := depth + 1;
        frame := if depth < |s.frames| then Some(s.frames[depth]) else None;
      }
    }
  }

  /** The backtrace view is the banner and then one line per frame, numbered
      from 0 innermost first, for the first ten frames of the chain: a chain
      of fifteen frames shows ten, a chain of three shows three. */
  lemma BacktraceShape(s: Snapshot, h: Host)
    ensures |BacktraceView(s, h)| == 1 + Min(MaxFrames, |s.frames|)
    ensures BacktraceView(s, h)[0] == h.banner("backtrace")
    ensures forall i :: 0 <= i < Min(MaxFrames, |s.frames|) ==>
      BacktraceView(s, h)[1 + i] == FrameLine(i, s.frames[i], h)
  {
    WalkShape(s.frames, 0, MaxFrames, h);
  }

  // ------------------------------------------------------------------ command

  /** The selectors used when the command is given none. */
  const DefaultArgs: seq<string> := ["reg", "code", "stack", "backtrace"]

  /** The first character of every token; `None` when some token is empty,
      where `a[0]` raises. */
  function FirstChars(tokens: seq<string>): (r: Option<seq<char>>)
    ensures r.None? <==> exists i :: 0 <= i < |tokens| && tokens[i] == ""
    ensures r.Some? ==> |r.value| == |tokens|
    ensures r.Some? ==> forall i :: 0 <= i < |tokens| ==> r.value[i] == tokens[i][0]
  {
    if tokens == [] then Some([])
    else
      var last := tokens[|tokens| - 1];
      var init := FirstChars(tokens[..|tokens| - 1]);
      if init.None? || last == "" then None else Some(init.value + [last[0]])
  }

  /** The selector characters of a command line. */
  function Selectors(args: seq<string>): Option<seq<char>>
  {
    FirstChars(if |args| == 0 then DefaultArgs else args)
  }

  /** The four views of one stop, as they would be rendered. */
  datatype Views = Views(
    regs: seq<string>,
    code: Result<seq<string>, Fault>,
    stack: seq<string>,
    backtrace: seq<string>)

  function AllViews(s: Snapshot, h: Host): Views
  {
    Views(RegsView(s, h), CodeView(s, h), StackView(s, h), BacktraceView(s, h))
  }

  /** The legend, then each selected view of `v` in the fixed order
      registers, code, stack, backtrace; an error of the code view, when it
      is selected, is the result instead. */
  function Compose(sel: seq<char>, legend: string, v: Views): Result<seq<string>, Fault>
  {
    var regs := if 'r' in sel then v.regs else [];
    var code := if 'c' in sel then v.code else Ok([]);
    var stack := if 's' in sel then v.stack else [];
    var backtrace := if 'b' in sel then v.backtrace else [];
    if code.Err? then Err(code.error)
    else Ok([legend] + regs + code.value + stack + backtrace)
  }

  /** The report for the selected characters at a stop. */
  function Report(sel: seq<char>, s: Snapshot, h: Host): Result<seq<string>, Fault>
  {
    Compose(sel, h.legend, AllViews(s, h))
  }

  /** What the command produces for its arguments. */
  function Run(args: seq<string>, s: Snapshot, h: Host): Result<seq<string>, Fault>
  {
    match Selectors(args)
    case None => Err(EmptyToken)
    case Some(sel) => Report(sel, s, h)
  }

  /** Takes the first character of every token, in order; gives `None` at
      the first empty token, where `a[0]` raises. */
  method SelectorChars(tokens: seq<string>) returns (r: Option<seq<char>>)
    ensures r == FirstChars(tokens)
  {
    var sel: seq<char> := [];
    for k := 0 to |tokens|
      invariant FirstChars(tokens[..k]) == Some(sel)
    {
      assert tokens[..k + 1][..k] == tokens[..k];
      if tokens[k] == "" {
        assert tokens[..k + 1][k] == "";
        r := None;
        PrefixFails(tokens, k + 1);
        return;
      }
      sel := sel + [tokens[k][0]];
    }
    assert tokens[..|tokens|] == tokens;
    r := Some(sel);
  }

  /** Once a prefix has an empty token, so has the whole sequence. */
  lemma PrefixFails(tokens: seq<string>, k: nat)
    requires k <= |tokens|
    requires FirstChars(tokens[..k]).None?
    ensures FirstChars(tokens).None?
  {
    var i :| 0 <= i < k && tokens[..k][i] == "";
    assert tokens[i] == "";
  }

  method ContextCommand(args: seq<string>, s: Snapshot, h: Host) returns (r: Result<seq<string>, Fault>)
    ensures r == Run(args, s, h)
  {
    var tokens := args;
    if |tokens| == 0 {
      tokens := DefaultArgs;
    }
    var chars := SelectorChars(tokens);
    if chars.None? {
      return Err(EmptyToken);
    }
    r := Assemble(chars.value, s, h);
  }

  /** Starts from the legend and appends each selected view in the fixed
      order registers, code, stack, backtrace; an error of the code view
      ends the command. */
  method Assemble(sel: seq<char>, s: Snapshot, h: Host) returns (r: Result<seq<string>, Fault>)
    ensures r == Report(sel, s, h)
  {
    ghost var v := AllViews(s, h);
    ghost var regsPart: seq<string> := [];
    ghost var codePart: seq<string> := [];
    ghost var stackPart: seq<string> := [];
    ghost var backtracePart: seq<string> := [];

    var result := [h.legend];
    if 'r' in sel {
      var regs := ContextRegs(s, h);
      regsPart := regs;
      result := result + regs;
    }
    assert result == [h.legend] + regsPart;
    if 'c' in sel {
      var code := ContextCode(s, h);
      if code.Err? {
        ComposeCodeError(sel, h.legend, v);
        return Err(code.error);
      }
      codePart := code.value;
      result := result + code.value;
    }
    assert result == [h.legend] + regsPart + codePart;
    if 's' in sel {
      var stack := ContextStack(s, h);
      stackPart := stack;
      result := result + stack;
    }
    assert result == [h.legend] + regsPart + codePart + stackPart;
    if 'b' in sel {
      var backtrace := ContextBacktrace(s, h);
      backtracePart := backtrace;
      result := result + backtrace;
    }
    assert result == [h.legend] + regsPart + codePart + stackPart + backtracePart;
    ComposeFrom(sel, h.legend, v, regsPart, codePart, stackPart, backtracePart);
    r := Ok(result);
  }

  /** An error of the selected code view is the report. */
  lemma ComposeCodeError(sel: seq<char>, legend: string, v: Views)
    requires 'c' in sel && v.code.Err?
    ensures Compose(sel, legend, v) == Err(v.code.error)
  {
  }

  /** Without an error from the code view, the report is the legend followed
      by the selected parts. */
  lemma ComposeFrom(sel: seq<char>, legend: string, v: Views,
                    regs: seq<string>, code: seq<string>, stack: seq<string>, backtrace: seq<string>)
    requires regs == if 'r' in sel then v.regs else []
    requires 'c' in sel ==> v.code == Ok(code)
    requires 'c' !in sel ==> code == []
    requires stack == if 's' in sel then v.stack else []
    requires backtrace == if 'b' in sel then v.backtrace else []
    ensures Compose(sel, legend, v) == Ok([legend] + regs + code + stack + backtrace)
  {
  }

  /** With no arguments every view is selected. */
  lemma DefaultSelectsAll()
    ensures Selectors([]) == Some(['r', 'c', 's', 'b'])
  {
    var d := DefaultArgs;
    forall i | 0 <= i < |d| ensures d[i] != "" {
      if i == 0 {} else if i == 1 {} else if i == 2 {} else {}
    }
    var r := FirstChars(d);
    assert r.Some?;
    assert r.value[0] == 'r' && r.value[1] == 'c' && r.value[2] == 's' && r.value[3] == 'b';
    assert r.value == ['r', 'c', 's', 'b'];
  }

  /** Without arguments the report is the legend and all four views in order. */
  lemma DefaultReport(s: Snapshot, h: Host)
    ensures Run([], s, h) == if CodeView(s, h).Err? then Err(EmptyWindow)
      else Ok([h.legend] + RegsView(s, h) + CodeView(s, h).value + StackView(s, h) + BacktraceView(s, h))
  {
    DefaultSelectsAll();
    var sel := ['r', 'c', 's', 'b'];
    assert 'r' in sel && 'c' in sel && 's' in sel && 'b' in sel;
    assert Run([], s, h) == Report(sel, s, h);
  }

  /** The report depends only on which of `r`, `c`, `s`, `b` occur among the
      selector characters: not on their order, their repetition or any other
      character. */
  lemma ReportDependsOnKinds(sel1: seq<char>, sel2: seq<char>, s: Snapshot, h: Host)
    requires forall c :: c in "rcsb" ==> (c in sel1 <==> c in sel2)
    ensures Report(sel1, s, h) == Report(sel2, s, h)
  {
    assert 'r' in "rcsb" && 'c' in "rcsb" && 's' in "rcsb" && 'b' in "rcsb";
  }

  /** A successful report always starts with the legend, and fails only when a
      selector is empty or the code view is selected over an empty window. */
  lemma RunOutcome(args: seq<string>, s: Snapshot, h: Host)
    ensures Run(args, s, h).Ok? ==> Run(args, s, h).value[0] == h.legend
    ensures Run(args, s, h) == Err(EmptyToken) <==>
      exists i :: 0 <= i < |args| && args[i] == ""
    ensures Run(args, s, h) == Err(EmptyWindow) <==>
      && Selectors(args).Some?
      && 'c' in Selectors(args).value
      && |s.window| == 0
  {
    if |args| == 0 {
      DefaultSelectsAll();
    }
    if Selectors(args).Some? {
      ComposeOutcome(Selectors(args).value, h.legend, AllViews(s, h));
    }
  }

  /** A composed report starts with the legend, and is an error exactly when
      the code view is selected and is one. */
  lemma ComposeOutcome(sel: seq<char>, legend: string, v: Views)
    ensures Compose(sel, legend, v).Ok? ==> Compose(sel, legend, v).value[0] == legend
    ensures Compose(sel, legend, v).Err? <==> 'c' in sel && v.code.Err?
    ensures Compose(sel, legend, v).Err? ==> Compose(sel, legend, v).error == v.code.error
  {
  }

  /** One non-empty token selects its first character. */
  lemma SingleToken(t: string)
    requires t != ""
    ensures Selectors([t]) == Some([t[0]])
  {
    var r := FirstChars([t]);
    assert [t][0] != "";
    assert r.Some?;
    assert r.value == [t[0]];
  }

  /** One selector character picks out one view, or none. */
  lemma ComposeSingle(c: char, legend: string, v: Views)
    ensures c == 'r' ==> Compose([c], legend, v) == Ok([legend] + v.regs)
    ensures c == 's' ==> Compose([c], legend, v) == Ok([legend] + v.stack)
    ensures c == 'b' ==> Compose([c], legend, v) == Ok([legend] + v.backtrace)
    ensures c !in "rcsb" ==> Compose([c], legend, v) == Ok([legend])
    ensures c == 'c' ==>
      (Compose([c], legend, v) == if v.code.Err? then Err(v.code.error) else Ok([legend] + v.code.value))
  {
    var none: seq<string> := [];
    if c == 'c' && v.code.Ok? {
      assert [legend] + none + v.code.value + none + none == [legend] + v.code.value;
    } else if c == 'r' {
      assert [legend] + v.regs + none + none + none == [legend] + v.regs;
    } else if c == 's' {
      assert [legend] + none + none + v.stack + none == [legend] + v.stack;
    } else if c == 'b' {
      assert [legend] + none + none + none + v.backtrace == [legend] + v.backtrace;
    } else if c !in "rcsb" {
      assert [legend] + none + none + none + none == [legend];
    }
  }

  /** Selecting by one token shows only the view its first character names;
      the comparison is case-sensitive, so `R...` selects nothing. */
  lemma SingleSelector(t: string, s: Snapshot, h: Host)
    requires t != ""
    ensures t[0] == 'r' ==> Run([t], s, h) == Ok([h.legend] + RegsView(s, h))
    ensures t[0] == 's' ==> Run([t], s, h) == Ok([h.legend] + StackView(s, h))
    ensures t[0] == 'b' ==> Run([t], s, h) == Ok([h.legend] + BacktraceView(s, h))
    ensures t[0] !in "rcsb" ==> Run([t], s, h) == Ok([h.legend])
    ensures t[0] == 'c' ==>
      (Run([t], s, h) == if |s.window| == 0 then Err(EmptyWindow) else Ok([h.legend] + CodeView(s, h).value))
  {
    SingleToken(t);
    ComposeSingle(t[0], h.legend, AllViews(s, h));
  }
}
