/** The translator's driver (Main in projects/08/VMtranslator.py): write
    the bootstrap code, then translate each .vm file in turn. A file is
    read through a Parser; each instruction is echoed as a comment line
    and handed to the CodeWriter method its command type names. The
    ValueError or TypeError the source raises ends the whole translation;
    here it ends it with ok == false, after what was already written. */
module VmTranslator {
  import opened Wrappers
  import opened Text
  import opened Hack
  import opened VmParser
  import opened VmWriter

  /** What translating some instructions produces: the lines, whether
      no error was raised, and the comparison and call counters after. */
  datatype Step = Step(code: seq<Asm>, ok: bool, bools: nat, calls: nat)

  /** int(arg2), for an operand of decimal digits; None where int() fails
      or the operand is missing. */
  function IndexArg(a: Option<string>): (r: Option<nat>)
    ensures r.Some? <==> a.Some? && IsDecimal(a.value)
  {
    if a.Some? && IsDecimal(a.value) then Some(DecimalValue(a.value)) else None
  }

  /** An index written by str() reads back as itself. */
  lemma IndexArgOfString(n: nat)
    ensures IndexArg(Some(NatToString(n))) == Some(n)
  {
    DecimalRoundTrip(n);
  }

  /** The comment line that echoes an instruction: "// " + ' '.join(tokens). */
  function Echo(tokens: seq<string>): Asm {
    Comment(" " + (if tokens == [] then "" else Join(tokens, ' ')))
  }

  predicate IsComparisonCommand(tokens: seq<string>) {
    |tokens| > 0 && CommandTypeOf(tokens[0]) == Some(CArithmetic)
    && OperatorOf(tokens[0]).Some? && OperatorOf(tokens[0]).value.IsComparison()
  }

  predicate IsCallCommand(tokens: seq<string>) {
    |tokens| > 0 && CommandTypeOf(tokens[0]) == Some(CCall)
  }

  /** The dispatch of translate for one instruction, after its echo line:
      the code the CodeWriter writes for it, in the file file, when k
      comparisons and c calls were written before. An empty instruction,
      which the Parser never yields, makes command_type raise IndexError. */
  function CommandCode(tokens: seq<string>, file: Option<string>, k: nat, c: nat): (r: Step)
    ensures tokens == [] ==> !r.ok && r.code == []
    ensures r.bools == k + (if r.ok && IsComparisonCommand(tokens) then 1 else 0)
    ensures r.calls == c + (if r.ok && IsCallCommand(tokens) then 1 else 0)
    ensures tokens != [] && CommandTypeOf(tokens[0]) == None ==> r == Step([], true, k, c)
    ensures tokens != [] && CommandTypeOf(tokens[0]) in {Some(CPush), Some(CPop), Some(CFunction), Some(CCall)}
              && IndexArg(Arg2(tokens)).None?
            ==> !r.ok && r.code == []
    ensures tokens != [] && CommandTypeOf(tokens[0]) == Some(CArithmetic) ==> (r.ok <==> OperatorOf(tokens[0]).Some?)
  {
    if tokens == [] then Step([], false, k, c) else
    var a1 := Arg1(tokens);
    var n := IndexArg(Arg2(tokens));
    match CommandTypeOf(tokens[0])
    case None => Step([], true, k, c)
    case Some(CPush) =>
      if n.None? then Step([], false, k, c)
      else var e := PushPopCode(CPush, a1.value, n.value, file); Step(e.code, e.ok, k, c)
    case Some(CPop) =>
      if n.None? then Step([], false, k, c)
      else var e := PushPopCode(CPop, a1.value, n.value, file); Step(e.code, e.ok, k, c)
    case Some(CArithmetic) =>
      var o := OperatorOf(tokens[0]);
      Step(ArithmeticCode(tokens[0], k), o.Some?,
           k + (if o.Some? && o.value.IsComparison() then 1 else 0), c)
    case Some(CLabel) => Step(LabelCode(file, a1), true, k, c)
    case Some(CGoto) => Step(GotoCode(file, a1), true, k, c)
    case Some(CIf) => Step(IfCode(file, a1), true, k, c)
    case Some(CFunction) =>
      if n.None? then Step([], false, k, c) else Step(FunctionCode(a1.value, n.value), true, k, c)
    case Some(CCall) =>
      if n.None? then Step([], false, k, c) else Step(CallCode(a1.value, n.value, c), true, k, c + 1)
    case Some(CReturn) => Step(ReturnCode(), true, k, c)
  }

  /** One instruction: its echo line, then its code. */
  function InstructionCode(tokens: seq<string>, file: Option<string>, k: nat, c: nat): (r: Step)
    ensures |r.code| > 0 && r.code[0] == Echo(tokens) && r.code[1..] == CommandCode(tokens, file, k, c).code
  {
    var s := CommandCode(tokens, file, k, c);
    Step([Echo(tokens)] + s.code, s.ok, s.bools, s.calls)
  }

  // ------------------------------------------------------ one file's loop

  /** The translate loop over the instructions of a file: each in turn,
      from the counters the one before left, stopping at the first that
      raises. */
  function Translation(instrs: seq<seq<string>>, file: Option<string>, k: nat, c: nat): Step
    decreases |instrs|
  {
    if instrs == [] then Step([], true, k, c)
    else
      var s := InstructionCode(instrs[0], file, k, c);
      if !s.ok then s
      else
        var rest := Translation(instrs[1..], file, s.bools, s.calls);
        Step(s.code + rest.code, rest.ok, rest.bools, rest.calls)
  }

  /** Translating a + b is translating a, then, unless a raised,
      translating b from the counters a left. */
  lemma {:induction false} TranslationAppend(a: seq<seq<string>>, b: seq<seq<string>>, file: Option<string>, k: nat, c: nat)
    ensures var ra := Translation(a, file, k, c);
      Translation(a + b, file, k, c)
      == if !ra.ok then ra
         else var rb := Translation(b, file, ra.bools, ra.calls); Step(ra.code + rb.code, rb.ok, rb.bools, rb.calls)
    decreases |a|
  {
    if a == [] {
      assert a + b == b;
    } else {
      assert (a + b)[0] == a[0] && (a + b)[1..] == a[1..] + b;
      var s := InstructionCode(a[0], file, k, c);
      if s.ok {
        TranslationAppend(a[1..], b, file, s.bools, s.calls);
        var ra := Translation(a[1..], file, s.bools, s.calls);
        if ra.ok {
          var rb := Translation(b, file, ra.bools, ra.calls);
          assert s.code + (ra.code + rb.code) == (s.code + ra.code) + rb.code;
        }
      }
    }
  }

  /** The loop step: one more instruction translated. */
  lemma TranslationSnoc(a: seq<seq<string>>, t: seq<string>, file: Option<string>, k: nat, c: nat)
    requires Translation(a, file, k, c).ok
    ensures var ra := Translation(a, file, k, c); var s := InstructionCode(t, file, ra.bools, ra.calls);
      Translation(a + [t], file, k, c) == Step(ra.code + s.code, s.ok, s.bools, s.calls)
  {
    TranslationAppend(a, [t], file, k, c);
    var ra := Translation(a, file, k, c);
    var s := InstructionCode(t, file, ra.bools, ra.calls);
    assert [t][1..] == [];
    if s.ok {
      assert s.code + [] == s.code;
    }
  }

  /** The first instruction that raises ends the translation of its file:
      what comes after it is not translated. */
  lemma TranslationStops(a: seq<seq<string>>, t: seq<string>, b: seq<seq<string>>, file: Option<string>, k: nat, c: nat)
    requires var ra := Translation(a, file, k, c);
      ra.ok && !CommandCode(t, file, ra.bools, ra.calls).ok
    ensures var ra := Translation(a, file, k, c); var r := Translation(a + [t] + b, file, k, c);
      !r.ok && r.code == ra.code + [Echo(t)] + CommandCode(t, file, ra.bools, ra.calls).code
  {
    TranslationSnoc(a, t, file, k, c);
    TranslationAppend(a + [t], b, file, k, c);
  }

  /** The loop step of translate: with all == done + pending, the next
      instruction is pending[0]; when it raises, the translation of the
      whole file is the translation up to it. */
  lemma TranslationNext(all: seq<seq<string>>, done: seq<seq<string>>, pending: seq<seq<string>>, file: Option<string>, k: nat, c: nat)
    requires all == done + pending && pending != [] && Translation(done, file, k, c).ok
    ensures var ra := Translation(done, file, k, c); var s := InstructionCode(pending[0], file, ra.bools, ra.calls);
      Translation(done + [pending[0]], file, k, c) == Step(ra.code + s.code, s.ok, s.bools, s.calls)
      && (!s.ok ==> Translation(all, file, k, c) == Translation(done + [pending[0]], file, k, c))
  {
    TranslationSnoc(done, pending[0], file, k, c);
    MoveFirst(all, done, pending);
    TranslationAppend(done + [pending[0]], pending[1..], file, k, c);
  }

  /** The number of comparison commands among instrs. */
  function Comparisons(instrs: seq<seq<string>>): nat {
    if instrs == [] then 0 else (if IsComparisonCommand(instrs[0]) then 1 else 0) + Comparisons(instrs[1..])
  }

  /** The number of call commands among instrs. */
  function Calls(instrs: seq<seq<string>>): nat {
    if instrs == [] then 0 else (if IsCallCommand(instrs[0]) then 1 else 0) + Calls(instrs[1..])
  }

  /** A translation without errors has bool_count advanced by the number
      of comparisons, and call_count by the number of calls; and it has
      an echo line, at least, for every instruction. */
  lemma {:induction false} TranslationCounts(instrs: seq<seq<string>>, file: Option<string>, k: nat, c: nat)
    ensures var r := Translation(instrs, file, k, c);
      r.ok ==> r.bools == k + Comparisons(instrs) && r.calls == c + Calls(instrs)
               && |r.code| >= |instrs|
    decreases |instrs|
  {
    if instrs != [] {
      var s := InstructionCode(instrs[0], file, k, c);
      if s.ok {
        TranslationCounts(instrs[1..], file, s.bools, s.calls);
      }
    }
  }

  /** Operators are looked up as written: an upper-case arithmetic
      command has a command type, but write_arithmetic raises for it
      after popping its operand. */
  lemma UpperCaseOperator(file: Option<string>, k: nat, c: nat)
    ensures var r := CommandCode(["ADD"], file, k, c);
      !r.ok && r.code == PopD() + DecSP() + SetAToStack()
  {
    assert Lower("ADD") == "add";
    assert OperatorOf("ADD") == None;
  }

  /** One .vm file of the program: its path and its lines. */
  datatype VmFile = VmFile(path: string, lines: seq<string>)

  /** translate for one file: set_file_name's header, then the translation
      of its instructions in the file's own label namespace. */
  function FileTranslation(f: VmFile, k: nat, c: nat): (r: Step)
    ensures |r.code| >= 2 && r.code[..2] == FileHeader(ModuleName(f.path))
  {
    var name := ModuleName(f.path);
    var t := Translation(Instructions(f.lines), Some(name), k, c);
    Step(FileHeader(name) + t.code, t.ok, t.bools, t.calls)
  }

  /** The loop of Main over the .vm files, stopping at the first that raises. */
  function ProgramTranslation(files: seq<VmFile>, k: nat, c: nat): Step
    decreases |files|
  {
    if files == [] then Step([], true, k, c)
    else
      var s := FileTranslation(files[0], k, c);
      if !s.ok then s
      else
        var rest := ProgramTranslation(files[1..], s.bools, s.calls);
        Step(s.code + rest.code, rest.ok, rest.bools, rest.calls)
  }

  /** Translating the files a + b is translating a, then, unless a raised,
      b from the counters a left. */
  lemma {:induction false} ProgramAppend(a: seq<VmFile>, b: seq<VmFile>, k: nat, c: nat)
    ensures var ra := ProgramTranslation(a, k, c);
      ProgramTranslation(a + b, k, c)
      == if !ra.ok then ra
         else var rb := ProgramTranslation(b, ra.bools, ra.calls); Step(ra.code + rb.code, rb.ok, rb.bools, rb.calls)
    decreases |a|
  {
    if a == [] {
      assert a + b == b;
    } else {
      assert (a + b)[0] == a[0] && (a + b)[1..] == a[1..] + b;
      var s := FileTranslation(a[0], k, c);
      if s.ok {
        ProgramAppend(a[1..], b, s.bools, s.calls);
        var ra := ProgramTranslation(a[1..], s.bools, s.calls);
        if ra.ok {
          var rb := ProgramTranslation(b, ra.bools, ra.calls);
          assert s.code + (ra.code + rb.code) == (s.code + ra.code) + rb.code;
        }
      }
    }
  }

  /** The loop step of Main: one more file translated. */
  lemma ProgramSnoc(a: seq<VmFile>, f: VmFile, k: nat, c: nat)
    requires ProgramTranslation(a, k, c).ok
    ensures var ra := ProgramTranslation(a, k, c); var s := FileTranslation(f, ra.bools, ra.calls);
      ProgramTranslation(a + [f], k, c) == Step(ra.code + s.code, s.ok, s.bools, s.calls)
  {
    ProgramAppend(a, [f], k, c);
    var ra := ProgramTranslation(a, k, c);
    var s := FileTranslation(f, ra.bools, ra.calls);
    assert [f][1..] == [];
    if s.ok {
      assert s.code + [] == s.code;
    }
  }

  /** The loop step of Main: with files == done + pending, the next file
      is pending[0]. */
  lemma ProgramNext(files: seq<VmFile>, done: seq<VmFile>, pending: seq<VmFile>, k: nat, c: nat)
    requires files == done + pending && pending != [] && ProgramTranslation(done, k, c).ok
    ensures var ra := ProgramTranslation(done, k, c); var s := FileTranslation(pending[0], ra.bools, ra.calls);
      ProgramTranslation(done + [pending[0]], k, c) == Step(ra.code + s.code, s.ok, s.bools, s.calls)
  {
    ProgramSnoc(done, pending[0], k, c);
  }

  /** A file that raises ends the translation of the program. */
  lemma ProgramStops(files: seq<VmFile>, done: seq<VmFile>, rest: seq<VmFile>, k: nat, c: nat)
    requires files == done + rest && !ProgramTranslation(done, k, c).ok
    ensures ProgramTranslation(files, k, c) == ProgramTranslation(done, k, c)
  {
    ProgramAppend(done, rest, k, c);
  }

  /** Main: the CodeWriter shared by all files. */
  class Translator {
    const cw: CodeWriter

    ghost predicate Valid()
      reads this, cw
    {
      cw.Valid()
    }

    /** The start of Main.__init__: the CodeWriter, and write_init. */
    constructor ()
      ensures Valid() && fresh(cw)
      ensures cw.output == InitCode(0) && cw.boolCount == 0 && cw.callCount == 1 && cw.currFile == None
    {
      var w := new CodeWriter();
      w.WriteInit();
      cw := w;
    }

    /** The dispatch of translate for the current instruction, as
        commands_dict names the CodeWriter method for its command type. */
    method WriteCommand(tokens: seq<string>) returns (ok: bool)
      requires Valid() && |tokens| > 0
      modifies cw
      ensures Valid() && cw.currFile == old(cw.currFile)
      ensures var r := CommandCode(tokens, old(cw.currFile), old(cw.boolCount), old(cw.callCount));
        cw.output == old(cw.output) + r.code && ok == r.ok
        && cw.boolCount == r.bools && cw.callCount == r.calls
    {
      ok := true;
      match CommandTypeOf(tokens[0])
      case None =>
      case Some(CArithmetic) =>
        ok := cw.WriteArithmetic(tokens[0]);
      case Some(CPush) =>
        ok := WriteStackCommand(tokens);
      case Some(CPop) =>
        ok := WriteStackCommand(tokens);
      case Some(CLabel) =>
        ok := WriteFlowCommand(tokens);
      case Some(CGoto) =>
        ok := WriteFlowCommand(tokens);
      case Some(CIf) =>
        ok := WriteFlowCommand(tokens);
      case Some(CFunction) =>
        ok := WriteFunctionCommand(tokens);
      case Some(CCall) =>
        ok := WriteFunctionCommand(tokens);
      case Some(CReturn) =>
        cw.WriteReturn();
    }

    /** push and pop: int(arg2), then write_push_pop. */
    method WriteStackCommand(tokens: seq<string>) returns (ok: bool)
      requires Valid() && |tokens| > 0 && CommandTypeOf(tokens[0]) in {Some(CPush), Some(CPop)}
      modifies cw
      ensures Valid() && cw.currFile == old(cw.currFile)
      ensures var r := CommandCode(tokens, old(cw.currFile), old(cw.boolCount), old(cw.callCount));
        cw.output == old(cw.output) + r.code && ok == r.ok
        && cw.boolCount == r.bools && cw.callCount == r.calls
    {
      var n := IndexArg(Arg2(tokens));
      if n.None? {
        ok := false;
      } else {
        ok := cw.WritePushPop(CommandTypeOf(tokens[0]).value, Arg1(tokens).value, n.value);
      }
    }

    /** label, goto and if-goto. */
    method WriteFlowCommand(tokens: seq<string>) returns (ok: bool)
      requires Valid() && |tokens| > 0 && CommandTypeOf(tokens[0]) in {Some(CLabel), Some(CGoto), Some(CIf)}
      modifies cw
      ensures Valid() && cw.currFile == old(cw.currFile)
      ensures var r := CommandCode(tokens, old(cw.currFile), old(cw.boolCount), old(cw.callCount));
        cw.output == old(cw.output) + r.code && ok == r.ok
        && cw.boolCount == r.bools && cw.callCount == r.calls
    {
      ok := true;
      var t := CommandTypeOf(tokens[0]);
      if t == Some(CLabel) {
        cw.WriteLabel(Arg1(tokens));
      } else if t == Some(CGoto) {
        cw.WriteGoto(Arg1(tokens));
      } else {
        cw.WriteIf(Arg1(tokens));
      }
    }

    /** function and call: int(arg2), then write_function or write_call. */
    method WriteFunctionCommand(tokens: seq<string>) returns (ok: bool)
      requires Valid() && |tokens| > 0 && CommandTypeOf(tokens[0]) in {Some(CFunction), Some(CCall)}
      modifies cw
      ensures Valid() && cw.currFile == old(cw.currFile)
      ensures var r := CommandCode(tokens, old(cw.currFile), old(cw.boolCount), old(cw.callCount));
        cw.output == old(cw.output) + r.code && ok == r.ok
        && cw.boolCount == r.bools && cw.callCount == r.calls
    {
      var n := IndexArg(Arg2(tokens));
      if n.None? {
        ok := false;
      } else if CommandTypeOf(tokens[0]) == Some(CFunction) {
        cw.WriteFunction(Arg1(tokens).value, n.value);
        ok := true;
      } else {
        cw.WriteCall(Arg1(tokens).value, n.value);
        ok := true;
      }
    }

    /** One instruction of translate: its echo line, then its code. */
    method WriteInstruction(tokens: seq<string>) returns (ok: bool)
      requires Valid() && |tokens| > 0
      modifies cw
      ensures Valid() && cw.currFile == old(cw.currFile)
      ensures var r := InstructionCode(tokens, old(cw.currFile), old(cw.boolCount), old(cw.callCount));
        cw.output == old(cw.output) + r.code && ok == r.ok
        && cw.boolCount == r.bools && cw.callCount == r.calls
    {
      cw.Write(Echo(tokens));
      ok := WriteCommand(tokens);
      AppendAssoc(old(cw.output), [Echo(tokens)], CommandCode(tokens, old(cw.currFile), old(cw.boolCount), old(cw.callCount)).code);
    }

    /** translate: the file's instructions, read through a Parser. */
    method Translate(f: VmFile) returns (ok: bool)
      requires Valid()
      modifies cw
      ensures Valid()
      ensures var r := FileTranslation(f, old(cw.boolCount), old(cw.callCount));
        cw.output == old(cw.output) + r.code && ok == r.ok
        && cw.boolCount == r.bools && cw.callCount == r.calls
      ensures cw.currFile == Some(ModuleName(f.path))
    {
      var parser := new Parser(f.lines);
      cw.SetFileName(f.path);
      ghost var file := cw.currFile;
      ghost var start := cw.output;
      ghost var k, c := old(cw.boolCount), old(cw.callCount);
      ghost var all := Instructions(f.lines);
      ghost var done: seq<seq<string>> := [];
      assert done + parser.Pending() == all;
      ok := true;
      while parser.HasMoreCommands()
        invariant parser.Valid() && fresh(parser) && parser.lines == f.lines
        invariant Valid() && cw.currFile == file
        invariant all == done + parser.Pending()
        invariant Translation(done, file, k, c).ok
        invariant cw.output == start + Translation(done, file, k, c).code
        invariant cw.boolCount == Translation(done, file, k, c).bools
        invariant cw.callCount == Translation(done, file, k, c).calls
        decreases |parser.Pending()|
      {
        ghost var pending := parser.Pending();
        ghost var ra := Translation(done, file, k, c);
        TranslationNext(all, done, pending, file, k, c);
        MoveFirst(all, done, pending);
        parser.Advance();
        var tokens := parser.currInstruction;
        ok := WriteInstruction(tokens);
        AppendAssoc(start, ra.code, InstructionCode(tokens, file, ra.bools, ra.calls).code);
        if !ok {
          AppendAssoc(old(cw.output), FileHeader(ModuleName(f.path)), Translation(all, file, k, c).code);
          return;
        }
        done := done + [tokens];
      }
      assert done + [] == done;
      AppendAssoc(old(cw.output), FileHeader(ModuleName(f.path)), Translation(all, file, k, c).code);
    }

    /** The loop of Main.__init__ over the .vm files. */
    method TranslateFiles(files: seq<VmFile>) returns (ok: bool)
      requires Valid()
      modifies cw
      ensures Valid()
      ensures var r := ProgramTranslation(files, old(cw.boolCount), old(cw.callCount));
        cw.output == old(cw.output) + r.code && ok == r.ok
        && cw.boolCount == r.bools && cw.callCount == r.calls
    {
      ghost var start, k, c := cw.output, cw.boolCount, cw.callCount;
      ok := true;
      var i := 0;
      ghost var done: seq<VmFile> := [];
      while i < |files|
        invariant 0 <= i <= |files| && Valid()
        invariant files == done + files[i..]
        invariant ProgramTranslation(done, k, c).ok
        invariant cw.output == start + ProgramTranslation(done, k, c).code
        invariant cw.boolCount == ProgramTranslation(done, k, c).bools
        invariant cw.callCount == ProgramTranslation(done, k, c).calls
      {
        ghost var r := ProgramTranslation(done, k, c);
        ghost var s := FileTranslation(files[i], r.bools, r.calls);
        ProgramNext(files, done, files[i..], k, c);
        MoveFirst(files, done, files[i..]);
        assert files[i..][1..] == files[i + 1..];
        ok := Translate(files[i]);
        AppendAssoc(start, r.code, s.code);
        if !ok {
          ProgramStops(files, done + [files[i]], files[i + 1..], k, c);
          return;
        }
        done := done + [files[i]];
        i := i + 1;
      }
      assert done + [] == done;
    }
  }
}
