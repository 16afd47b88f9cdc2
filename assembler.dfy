/** The Assembler of the Hack assembler (projects/06/assembler.py): the
    two passes over the instructions of a .asm file. The first pass gives
    every label the address of the instruction after it; the second writes
    one 16-bit word per A- or C-command and allocates RAM from 16 upward
    for the symbols that are neither numbers nor known. Each pass is
    specified by a function that folds one step over the instructions
    seen so far, and the class runs the parser loops against it. */
module HackAssembler {
  import opened Wrappers
  import opened Text
  import opened Hack
  import opened HackCode
  import opened AsmParser
  import opened SymbolTables
  import opened HackAddresses

  // ---------------------------------------------------------- the first pass

  /** The instructions has_more_commands lets advance see: none is empty. */
  predicate Instructions(instrs: seq<string>) {
    forall j :: 0 <= j < |instrs| ==> |instrs[j]| > 0
  }

  /** The number of A- and C-commands among instrs. */
  function RealCount(instrs: seq<string>): nat {
    if instrs == [] then 0
    else RealCount(instrs[..|instrs| - 1]) + (if IsReal(instrs[|instrs| - 1]) then 1 else 0)
  }

  /** What the first pass keeps: the symbol table and instruction_num. */
  datatype Labelling = Labelling(symbols: map<string, string>, num: int)

  /** One turn of the first loop: advance, then write_L for a label, which
      records the address instruction_num + 1. */
  function LabelStep(st: Labelling, instr: string): (r: Labelling)
    requires |instr| > 0 && st.num >= -1
    ensures r.num == st.num + (if IsReal(instr) then 1 else 0)
    ensures Parse(instr).LCommand? ==>
      Parse(instr).symbol in r.symbols && r.symbols[Parse(instr).symbol] == CreateAddress(st.num + 1)
    ensures !Parse(instr).LCommand? ==> r.symbols == st.symbols
  {
    var num := st.num + (if IsReal(instr) then 1 else 0);
    match Parse(instr)
    case LCommand(s) => Labelling(st.symbols[s := CreateAddress(num + 1)], num)
    case _ => Labelling(st.symbols, num)
  }

  /** The first pass over instrs, from st. */
  function FirstPass(instrs: seq<string>, st: Labelling): (r: Labelling)
    requires Instructions(instrs) && st.num >= -1
    ensures r.num == st.num + RealCount(instrs)
    decreases |instrs|
  {
    if instrs == [] then st
    else
      var n := |instrs| - 1;
      LabelStep(FirstPass(instrs[..n], st), instrs[n])
  }

  /** A label gets the address of the first A- or C-command after it:
      instruction_num + 1 counts the commands before the label, and labels
      do not advance it. Of two declarations the last one wins. */
  lemma {:induction false} FirstPassLabel(instrs: seq<string>, st: Labelling, i: nat, s: string)
    requires Instructions(instrs) && st.num >= -1
    requires i < |instrs| && Parse(instrs[i]) == LCommand(s)
    requires forall j :: i < j < |instrs| ==> Parse(instrs[j]) != LCommand(s)
    ensures var r := FirstPass(instrs, st);
      s in r.symbols && r.symbols[s] == CreateAddress(st.num + 1 + RealCount(instrs[..i]))
    decreases |instrs|
  {
    var n := |instrs| - 1;
    var prefix := instrs[..n];
    var q := FirstPass(prefix, st);
    var r := LabelStep(q, instrs[n]);
    assert FirstPass(instrs, st) == r;
    var k := st.num + 1 + RealCount(instrs[..i]);
    if i == n {
      assert instrs[..i] == prefix;
      assert k == q.num + 1;
      LabelStepSets(q, instrs[n], s);
      assert r.symbols[s] == CreateAddress(k);
    } else {
      assert prefix[i] == instrs[i] && prefix[..i] == instrs[..i];
      assert forall j :: i < j < n ==> prefix[j] == instrs[j];
      FirstPassLabel(prefix, st, i, s);
      assert q.symbols[s] == CreateAddress(k);
      LabelStepKeeps(q, instrs[n], s);
      assert r.symbols[s] == q.symbols[s];
    }
  }

  /** The label of a step gets instruction_num + 1, which the label does
      not advance. */
  lemma LabelStepSets(q: Labelling, x: string, s: string)
    requires |x| > 0 && q.num >= -1 && Parse(x) == LCommand(s)
    ensures s in LabelStep(q, x).symbols && LabelStep(q, x).symbols[s] == CreateAddress(q.num + 1)
  {
    assert !IsReal(x);
  }

  /** A step leaves alone every symbol it does not declare. */
  lemma LabelStepKeeps(q: Labelling, x: string, s: string)
    requires |x| > 0 && q.num >= -1 && Parse(x) != LCommand(s)
    ensures var r := LabelStep(q, x).symbols;
      (s in r <==> s in q.symbols) && (s in q.symbols ==> r[s] == q.symbols[s])
  {
  }

  /** The first pass leaves alone every symbol that is not declared as a
      label. */
  lemma {:induction false} FirstPassKeeps(instrs: seq<string>, st: Labelling, s: string)
    requires Instructions(instrs) && st.num >= -1
    requires forall j :: 0 <= j < |instrs| ==> Parse(instrs[j]) != LCommand(s)
    ensures var r := FirstPass(instrs, st);
      (s in r.symbols <==> s in st.symbols) && (s in st.symbols ==> r.symbols[s] == st.symbols[s])
    decreases |instrs|
  {
    if instrs != [] {
      var n := |instrs| - 1;
      assert forall j :: 0 <= j < n ==> instrs[..n][j] == instrs[j];
      FirstPassKeeps(instrs[..n], st, s);
      LabelStepKeeps(FirstPass(instrs[..n], st), instrs[n], s);
    }
  }

  /** With fewer than 2^15 commands, every address the first pass records
      is 15 digits. */
  lemma {:induction false} FirstPassAddresses(instrs: seq<string>, st: Labelling)
    requires Instructions(instrs) && st.num >= -1 && Addresses(st.symbols)
    requires st.num + 1 + RealCount(instrs) < Pow2(15)
    ensures Addresses(FirstPass(instrs, st).symbols)
    decreases |instrs|
  {
    if instrs != [] {
      var n := |instrs| - 1;
      FirstPassAddresses(instrs[..n], st);
      var q := FirstPass(instrs[..n], st);
      if Parse(instrs[n]).LCommand? {
        CreateAddressValue(q.num + 1);
        AddressesUpdate(q.symbols, Parse(instrs[n]).symbol, CreateAddress(q.num + 1));
      }
    }
  }

  /** Setting one symbol to an address keeps every address 15 digits. */
  lemma AddressesUpdate(t: map<string, string>, s: string, a: string)
    requires Addresses(t) && IsAddress(a)
    ensures Addresses(t[s := a])
  {
  }

  // --------------------------------------------------------- the second pass

  /** What the second pass keeps: the lines of the .hack file, the symbol
      table and ram_address. */
  datatype Pass = Pass(hack: seq<string>, symbols: map<string, string>, ram: nat)

  /** write_A: a decimal symbol is its own address; a known symbol has the
      table's address; any other symbol is given ram_address, which then
      moves on. */
  function WriteAStep(p: Pass, symbol: string): (r: Pass)
    ensures |r.hack| == |p.hack| + 1 && r.hack[..|p.hack|] == p.hack
    ensures IsDecimal(symbol) ==>
      r.hack[|p.hack|] == "0" + CreateAddress(DecimalValue(symbol)) && r.symbols == p.symbols && r.ram == p.ram
    ensures !IsDecimal(symbol) ==> symbol in r.symbols && r.hack[|p.hack|] == "0" + r.symbols[symbol]
    ensures !IsDecimal(symbol) && symbol !in p.symbols ==>
      r.symbols[symbol] == CreateAddress(p.ram) && r.ram == p.ram + 1
    ensures symbol in p.symbols ==> r.ram == p.ram
    ensures r.symbols.Keys <= p.symbols.Keys + {symbol}
    ensures forall s :: s in p.symbols ==> s in r.symbols && r.symbols[s] == p.symbols[s]
  {
    if IsDecimal(symbol) then
      Pass(p.hack + ["0" + CreateAddress(DecimalValue(symbol))], p.symbols, p.ram)
    else if symbol in p.symbols then
      Pass(p.hack + ["0" + p.symbols[symbol]], p.symbols, p.ram)
    else
      var address := CreateAddress(p.ram);
      Pass(p.hack + ["0" + address], p.symbols[symbol := address], p.ram + 1)
  }

  /** write_C: 111, then the comp, dest and jump fields. */
  function CWord(dest: Option<string>, comp: string, jump: Option<string>): (r: string)
    ensures |r| == 16 && IsBinary(r) && r[..3] == "111"
    ensures r[3] == '1' <==> 'M' in comp
    ensures r[10] == '1' <==> dest.Some? && 'A' in dest.value
    ensures r[11] == '1' <==> dest.Some? && 'D' in dest.value
    ensures r[12] == '1' <==> dest.Some? && 'M' in dest.value
    ensures r[3..10] == CompCode(comp) && r[10..13] == DestCode(dest) && r[13..] == JumpCode(jump)
    ensures jump.Some? && jump.value in JumpTable() ==> r[13..] == JumpTable()[jump.value]
    ensures jump.None? || jump.value !in JumpTable() ==> r[13..] == "000"
  {
    var c, d, j := CompCode(comp), DestCode(dest), JumpCode(jump);
    var r := "111" + c + d + j;
    assert r[3] == c[0] && r[3..10] == c && r[10..13] == d && r[13..] == j;
    r
  }

  /** One turn of the second loop: advance, then write_A or write_C; a
      label writes nothing. */
  function CodeStep(p: Pass, instr: string): (r: Pass)
    requires |instr| > 0
    ensures |r.hack| == |p.hack| + (if IsReal(instr) then 1 else 0) && r.hack[..|p.hack|] == p.hack
    ensures !IsReal(instr) ==> r == p
    ensures p.ram <= r.ram <= p.ram + 1
  {
    CommandStep(p, Parse(instr))
  }

  /** What the second loop does with the fields advance has set. */
  function CommandStep(p: Pass, command: Command): (r: Pass)
    ensures |r.hack| == |p.hack| + (if command.LCommand? then 0 else 1) && r.hack[..|p.hack|] == p.hack
    ensures command.LCommand? ==> r == p
    ensures command.CCommand? ==>
      r.hack[|p.hack|] == CWord(command.dest, command.comp, command.jump) && r.symbols == p.symbols && r.ram == p.ram
    ensures command.ACommand? ==> r == WriteAStep(p, command.symbol)
  {
    match command
    case ACommand(s) => WriteAStep(p, s)
    case LCommand(_) => p
    case CCommand(d, c, j) => Pass(p.hack + [CWord(d, c, j)], p.symbols, p.ram)
  }

  /** The second pass over instrs, from p. */
  function SecondPass(instrs: seq<string>, p: Pass): (r: Pass)
    requires Instructions(instrs)
    decreases |instrs|
  {
    if instrs == [] then p
    else
      var n := |instrs| - 1;
      CodeStep(SecondPass(instrs[..n], p), instrs[n])
  }

  /** One more instruction is one more step of either pass. */
  lemma PassSnoc(done: seq<string>, x: string, st: Labelling, p: Pass)
    requires Instructions(done) && |x| > 0 && st.num >= -1
    ensures Instructions(done + [x])
    ensures FirstPass(done + [x], st) == LabelStep(FirstPass(done, st), x)
    ensures SecondPass(done + [x], p) == CodeStep(SecondPass(done, p), x)
  {
    PrefixOfSnoc(done, x);
  }

  /** assemble, from a symbol table holding base: the first pass from
      instruction_num -1, then the second from ram_address 16 into an
      empty .hack file. */
  function Assembly(lines: seq<string>, base: map<string, string>): Pass {
    var instrs := Stream(lines);
    SecondPass(instrs, Pass([], FirstPass(instrs, Labelling(base, -1)).symbols, 16))
  }

  /** assemble with a fresh SymbolTable. */
  function Assembled(lines: seq<string>): Pass {
    Assembly(lines, BaseTable())
  }

  /** One step writes one line for an A- or C-command and none for a
      label, and adds at most the symbol of an A-command, at ram_address,
      which then moves on by one. */
  lemma CodeStepEffect(q: Pass, instr: string)
    requires |instr| > 0
    ensures var r := CodeStep(q, instr);
      r.hack[..|q.hack|] == q.hack && |r.hack| == |q.hack| + (if IsReal(instr) then 1 else 0)
    ensures var r := CodeStep(q, instr);
      (r.symbols == q.symbols && r.ram == q.ram)
      || (Parse(instr).ACommand? && Parse(instr).symbol !in q.symbols
          && r.symbols == q.symbols[Parse(instr).symbol := CreateAddress(q.ram)] && r.ram == q.ram + 1)
  {
  }

  /** The second pass writes one line per A- or C-command, after the lines
      already written; it keeps every address the table had, and
      ram_address only grows. */
  lemma {:induction false} SecondPassKeeps(instrs: seq<string>, p: Pass)
    requires Instructions(instrs)
    ensures var r := SecondPass(instrs, p);
      |r.hack| == |p.hack| + RealCount(instrs) && r.hack[..|p.hack|] == p.hack
    ensures var r := SecondPass(instrs, p);
      r.ram >= p.ram && forall s :: s in p.symbols ==> s in r.symbols && r.symbols[s] == p.symbols[s]
    decreases |instrs|
  {
    if instrs != [] {
      var n := |instrs| - 1;
      SecondPassKeeps(instrs[..n], p);
      var q := SecondPass(instrs[..n], p);
      CodeStepEffect(q, instrs[n]);
      var r := CodeStep(q, instrs[n]);
      assert r.hack[..|p.hack|] == q.hack[..|p.hack|];
    }
  }

  /** The second pass adds as many symbols as ram_address moves on. */
  lemma {:induction false} SecondPassCount(instrs: seq<string>, p: Pass)
    requires Instructions(instrs)
    ensures var r := SecondPass(instrs, p);
      p.symbols.Keys <= r.symbols.Keys && r.ram >= p.ram
      && |r.symbols.Keys - p.symbols.Keys| == r.ram - p.ram
    decreases |instrs|
  {
    if instrs != [] {
      var n := |instrs| - 1;
      SecondPassCount(instrs[..n], p);
      var q := SecondPass(instrs[..n], p);
      CodeStepEffect(q, instrs[n]);
      var r := CodeStep(q, instrs[n]);
      assert SecondPass(instrs, p) == r;
      if r.ram != q.ram {
        var s := Parse(instrs[n]).symbol;
        assert r.symbols.Keys == q.symbols.Keys + {s};
        NewKey(p.symbols.Keys, q.symbols.Keys, s);
      } else {
        assert r.symbols == q.symbols;
      }
    }
  }

  /** A key not yet in a table adds one to the keys added since pk. */
  lemma NewKey(pk: set<string>, qk: set<string>, s: string)
    requires pk <= qk && s !in qk
    ensures |(qk + {s}) - pk| == |qk - pk| + 1
  {
    assert (qk + {s}) - pk == (qk - pk) + {s};
  }

  /** The symbols the second pass adds get the addresses of the RAM
      locations ram_address passes over, no two the same. */
  lemma {:induction false} SecondPassFresh(instrs: seq<string>, p: Pass)
    requires Instructions(instrs)
    ensures var r := SecondPass(instrs, p);
      forall s :: s in r.symbols && s !in p.symbols ==>
        IsBinary(r.symbols[s]) && p.ram <= BinaryValue(r.symbols[s]) < r.ram
    ensures var r := SecondPass(instrs, p);
      forall s, t :: s in r.symbols && s !in p.symbols && t in r.symbols && t !in p.symbols && s != t ==>
        r.symbols[s] != r.symbols[t]
    decreases |instrs|
  {
    if instrs != [] {
      var n := |instrs| - 1;
      SecondPassFresh(instrs[..n], p);
      SecondPassKeeps(instrs[..n], p);
      var q := SecondPass(instrs[..n], p);
      CodeStepEffect(q, instrs[n]);
      if CodeStep(q, instrs[n]).ram != q.ram {
        CreateAddressValue(q.ram);
      }
    }
  }

  /** Every line is a word of 16 binary digits. */
  predicate Words(hack: seq<string>) {
    forall j :: 0 <= j < |hack| ==> |hack[j]| == 16 && IsBinary(hack[j])
  }

  /** Every decimal A-command of instrs names a value below 2^15. */
  predicate ConstantsFit(instrs: seq<string>)
    requires Instructions(instrs)
  {
    forall j :: 0 <= j < |instrs| && Parse(instrs[j]).ACommand? && IsDecimal(Parse(instrs[j]).symbol) ==>
      DecimalValue(Parse(instrs[j]).symbol) < Pow2(15)
  }

  /** A 16-digit binary word keeps the file made of them. */
  lemma WordsAppend(hack: seq<string>, w: string)
    requires Words(hack) && |w| == 16 && IsBinary(w)
    ensures Words(hack + [w])
  {
    assert forall k :: 0 <= k < |hack + [w]| ==> (hack + [w])[k] == if k < |hack| then hack[k] else w;
  }

  /** 0 and an address make a 16-digit word. */
  lemma AWord(hack: seq<string>, a: string)
    requires Words(hack) && IsAddress(a)
    ensures Words(hack + ["0" + a])
  {
    var w := "0" + a;
    assert forall k :: 0 <= k < 16 ==> w[k] == if k == 0 then '0' else a[k - 1];
    WordsAppend(hack, w);
  }

  /** One step of the second pass keeps the words 16 digits and the
      addresses 15. */
  lemma CodeStepWords(p: Pass, instr: string)
    requires |instr| > 0 && Words(p.hack) && Addresses(p.symbols) && p.ram < Pow2(15)
    requires Parse(instr).ACommand? && IsDecimal(Parse(instr).symbol) ==> DecimalValue(Parse(instr).symbol) < Pow2(15)
    ensures var r := CodeStep(p, instr); Words(r.hack) && Addresses(r.symbols) && r.ram <= p.ram + 1
  {
    CommandStepWords(p, Parse(instr));
  }

  lemma CommandStepWords(p: Pass, command: Command)
    requires Words(p.hack) && Addresses(p.symbols) && p.ram < Pow2(15)
    requires command.ACommand? && IsDecimal(command.symbol) ==> DecimalValue(command.symbol) < Pow2(15)
    ensures var r := CommandStep(p, command); Words(r.hack) && Addresses(r.symbols) && r.ram <= p.ram + 1
  {
    match command
    case ACommand(s) =>
      if IsDecimal(s) {
        CreateAddressValue(DecimalValue(s));
        AWord(p.hack, CreateAddress(DecimalValue(s)));
      } else if s in p.symbols {
        AWord(p.hack, p.symbols[s]);
      } else {
        CreateAddressValue(p.ram);
        AWord(p.hack, CreateAddress(p.ram));
        AddressesUpdate(p.symbols, s, CreateAddress(p.ram));
      }
    case LCommand(_) =>
    case CCommand(d, c, j) =>
      WordsAppend(p.hack, CWord(d, c, j));
  }

  /** The second pass writes only 16-digit binary words when the table's
      addresses are 15 digits, the constants fit in 15 bits and RAM does
      not run past 2^15. */
  lemma {:induction false} SecondPassWords(instrs: seq<string>, p: Pass)
    requires Instructions(instrs) && ConstantsFit(instrs)
    requires Words(p.hack) && Addresses(p.symbols) && p.ram + |instrs| <= Pow2(15)
    ensures var r := SecondPass(instrs, p);
      Words(r.hack) && Addresses(r.symbols) && r.ram <= p.ram + |instrs|
    decreases |instrs|
  {
    if instrs != [] {
      var n := |instrs| - 1;
      assert forall j :: 0 <= j < n ==> instrs[..n][j] == instrs[j];
      SecondPassWords(instrs[..n], p);
      CodeStepWords(SecondPass(instrs[..n], p), instrs[n]);
    }
  }

  /** A program of at most 2^15 - 16 instructions whose constants fit in
      15 bits assembles to 16-digit binary words. */
  lemma AssembledWords(lines: seq<string>)
    requires var instrs := Stream(lines); ConstantsFit(instrs) && 16 + |instrs| <= Pow2(15)
    ensures Words(Assembled(lines).hack)
  {
    var instrs := Stream(lines);
    BaseTableAddresses();
    RealCountBound(instrs);
    FirstPassAddresses(instrs, Labelling(BaseTable(), -1));
    SecondPassWords(instrs, Pass([], FirstPass(instrs, Labelling(BaseTable(), -1)).symbols, 16));
  }

  lemma {:induction false} RealCountBound(instrs: seq<string>)
    ensures RealCount(instrs) <= |instrs|
  {
    if instrs != [] {
      RealCountBound(instrs[..|instrs| - 1]);
    }
  }

  // ---------------------------------------- the code of the VM translator

  /** The dest bits of the Hack specification. */
  function DestBits(d: Dest): string {
    match d case DestA => "100" case DestD => "010" case DestM => "001"
  }

  /** The jump bits of the Hack specification. */
  function CondBits(j: Cond): string {
    match j case JGT => "001" case JEQ => "010" case JLT => "100" case JNE => "101" case JMP => "111"
  }

  /** The word the Hack specification gives an assignment or a jump of the
      VM translator. */
  function HackWord(i: Asm): string
    requires i.Assign? || i.Jump?
  {
    var d := if i.Assign? then DestBits(i.dest) else "000";
    var j := if i.Jump? then CondBits(i.cond) else "000";
    "111" + CompWord(i.comp) + (d + j)
  }

  /** The fields parse_C takes from an assignment or a jump the VM
      translator writes. */
  function DestField(i: Asm): Option<string> {
    if i.Assign? then Some(DestText(i.dest)) else None
  }

  function JumpField(i: Asm): Option<string> {
    if i.Jump? then Some(CondText(i.cond)) else None
  }

  /** An A-instruction of the VM translator with a constant is written as
      0 and the constant's 15 digits, whatever the table holds. */
  lemma TranslatorConstant(p: Pass, n: nat)
    ensures CodeStep(p, Render(AConst(n))) == Pass(p.hack + ["0" + CreateAddress(n)], p.symbols, p.ram)
  {
    ParseRenderedA(AConst(n));
    DecimalRoundTrip(n);
  }

  /** A C-instruction of the VM translator is written as write_C's word
      for its text's fields. */
  lemma TranslatorStep(p: Pass, i: Asm)
    requires i.Assign? || i.Jump?
    ensures CodeStep(p, Render(i)) == Pass(p.hack + [CWord(DestField(i), CompText(i.comp), JumpField(i))], p.symbols, p.ram)
  {
    ParseRenderedC(i);
  }

  /** write_C gives each C-instruction of the VM translator its word in
      the Hack specification, except M+D and M|D, which get the bits of
      D&M. */
  lemma TranslatorWord(i: Asm)
    requires i.Assign? || i.Jump?
    ensures CWord(DestField(i), CompText(i.comp), JumpField(i)) == HackWord(i)
        <==> i.comp != MPlusD && i.comp != MOrD
  {
    var x := CompCode(CompText(i.comp));
    var tail := DestCode(DestField(i)) + JumpCode(JumpField(i));
    if i.Assign? {
      DestOfTranslator(i.dest);
    } else {
      JumpOfTranslator(i.cond);
    }
    assert tail == (if i.Assign? then DestBits(i.dest) else "000") + (if i.Jump? then CondBits(i.cond) else "000");
    AppendAssoc("111" + x, DestCode(DestField(i)), JumpCode(JumpField(i)));
    CompOfTranslator(i.comp);
    MiddleCancel("111", x, CompWord(i.comp), tail);
  }

  /** Equal-length middles of equal concatenations are equal. */
  lemma MiddleCancel(a: string, x: string, y: string, b: string)
    requires |x| == |y|
    ensures a + x + b == a + y + b <==> x == y
  {
    if a + x + b == a + y + b {
      assert x == (a + x + b)[|a|..|a| + |x|];
      assert y == (a + y + b)[|a|..|a| + |y|];
    }
  }

  // ------------------------------------------------------------ the class

  class Assembler {
    const parser: Parser
    const table: SymbolTable
    /** ram_address: the next RAM location for a variable. */
    var ramAddress: nat
    /** The lines written to the .hack file. */
    var hack: seq<string>

    /** Assembler(parser, symbol_table, code); Code keeps no state, so its
        functions are called directly. */
    constructor (p: Parser, t: SymbolTable)
      ensures parser == p && table == t && ramAddress == 16 && hack == []
    {
      parser := p;
      table := t;
      ramAddress := 16;
      hack := [];
    }

    /** The state the second pass works on. */
    ghost function State(): Pass
      reads this, table
    {
      Pass(hack, table.symbols, ramAddress)
    }

    /** write: one line of the .hack file. */
    method Write(instruction: string)
      modifies this`hack
      ensures hack == old(hack) + [instruction]
    {
      hack := hack + [instruction];
    }

    /** write_A */
    method WriteA(symbol: string)
      modifies this`hack, this`ramAddress, table`symbols
      ensures State() == WriteAStep(old(State()), symbol)
    {
      var instruction := "0";
      if IsDecimal(symbol) {
        instruction := instruction + CreateAddress(DecimalValue(symbol));
      } else {
        if !table.Contains(symbol) {
          var address := CreateAddress(ramAddress);
          table.AddEntry(symbol, address);
          ramAddress := ramAddress + 1;
        }
        instruction := instruction + table.GetAddress(symbol);
      }
      Write(instruction);
    }

    /** write_L: the label gets the address after the instructions
        counted so far. */
    method WriteL(symbol: string)
      requires parser.instructionNum >= -1
      modifies table`symbols
      ensures table.symbols == old(table.symbols)[symbol := CreateAddress(parser.instructionNum + 1)]
    {
      var address := CreateAddress(parser.instructionNum + 1);
      table.AddEntry(symbol, address);
    }

    /** write_C */
    method WriteC(dest: Option<string>, comp: string, jump: Option<string>)
      modifies this`hack
      ensures hack == old(hack) + [CWord(dest, comp, jump)]
    {
      var instruction := "111";
      instruction := instruction + CompCode(comp);
      instruction := instruction + DestCode(dest);
      instruction := instruction + JumpCode(jump);
      Write(instruction);
    }

    /** assemble, for a file of the given lines: load it, build the label
        table, read the file again and write the words. */
    method Assemble(ls: seq<string>)
      modifies parser, this`hack, this`ramAddress, table`symbols
      ensures State() == Assembly(ls, old(table.symbols))
    {
      hack := [];
      parser.LoadFile(ls);
      LabelPass();
      parser.ResetFile();
      ramAddress := 16;
      CodePass();
    }

    /** The first loop of assemble: advance through the file and record
        each label. */
    method LabelPass()
      requires parser.Valid() && parser.Pending() == Stream(parser.lines) && parser.instructionNum == -1
      modifies parser`next, parser`currInstruction, parser`instructionNum, parser`command, table`symbols
      ensures parser.Valid()
      ensures table.symbols == FirstPass(Stream(parser.lines), Labelling(old(table.symbols), -1)).symbols
    {
      ghost var start := Labelling(table.symbols, -1);
      ghost var all := parser.Pending();
      ghost var done: seq<string> := [];
      while parser.HasMoreCommands()
        invariant parser.Valid()
        invariant all == done + parser.Pending() && Instructions(done)
        invariant Labelling(table.symbols, parser.instructionNum) == FirstPass(done, start)
        decreases |parser.Pending()|
      {
        ghost var x := parser.currInstruction;
        MoveFirst(all, done, parser.Pending());
        PassSnoc(done, x, start, Pass([], map[], 0));
        AdvanceAndLabel();
        done := done + [x];
      }
      assert done + [] == done;
    }

    /** The body of the first loop: advance, then write_L for a label. */
    method AdvanceAndLabel()
      requires parser.Valid() && parser.currInstruction != ""
      modifies parser`next, parser`currInstruction, parser`instructionNum, parser`command, table`symbols
      ensures parser.Valid() && parser.Pending() == old(parser.Pending())[1..]
      ensures Labelling(table.symbols, parser.instructionNum)
           == LabelStep(Labelling(old(table.symbols), old(parser.instructionNum)), old(parser.currInstruction))
    {
      parser.Advance();
      var command := parser.command.value;
      if command.LCommand? {
        WriteL(command.symbol);
      }
    }

    /** The body of the second loop: write_A for an A-command, write_C
        for a C-command, nothing for a label. */
    method WriteCommand(command: Command)
      modifies this`hack, this`ramAddress, table`symbols
      ensures State() == CommandStep(old(State()), command)
    {
      match command {
        case ACommand(s) => WriteA(s);
        case LCommand(_) =>
        case CCommand(d, c, j) => WriteC(d, c, j);
      }
    }

    /** The second loop of assemble: advance through the file again and
        write the word of each A- and C-command. */
    method CodePass()
      requires parser.Valid() && parser.Pending() == Stream(parser.lines)
      modifies parser`next, parser`currInstruction, parser`instructionNum, parser`command
      modifies this`hack, this`ramAddress, table`symbols
      ensures State() == SecondPass(Stream(parser.lines), old(State()))
    {
      ghost var start := State();
      ghost var all := parser.Pending();
      ghost var done: seq<string> := [];
      while parser.HasMoreCommands()
        invariant parser.Valid()
        invariant all == done + parser.Pending() && Instructions(done)
        invariant State() == SecondPass(done, start)
        decreases |parser.Pending()|
      {
        ghost var x := parser.currInstruction;
        MoveFirst(all, done, parser.Pending());
        PassSnoc(done, x, Labelling(map[], -1), start);
        AdvanceAndWrite();
        done := done + [x];
      }
      assert done + [] == done;
    }

    /** The body of the second loop: advance, then write the command. */
    method AdvanceAndWrite()
      requires parser.Valid() && parser.currInstruction != ""
      modifies parser`next, parser`currInstruction, parser`instructionNum, parser`command
      modifies this`hack, this`ramAddress, table`symbols
      ensures parser.Valid() && parser.Pending() == old(parser.Pending())[1..]
      ensures State() == CodeStep(old(State()), old(parser.currInstruction))
    {
      parser.Advance();
      WriteCommand(parser.command.value);
    }
  }
}
