/** The VM translator's CodeWriter (projects/08/VMtranslator.py): it turns
    each VM command into Hack assembly and appends it to the output file,
    numbering the lines that are instructions. The code each command
    produces is given first as a function; the CodeWriter class appends
    it step by step, as the source does. A command the source rejects
    with ValueError ends the method with ok == false, after whatever the
    source had already written. */
module VmWriter {
  import opened Wrappers
  import opened Text
  import opened Hack
  import opened VmParser

  // -------------------------------------------------------- stack helpers

  /** increment_SP */
  function IncSP(): seq<Asm> {
    [ASym("SP"), Assign(DestM, MPlusOne)]
  }

  /** decrement_SP */
  function DecSP(): seq<Asm> {
    [ASym("SP"), Assign(DestM, MMinusOne)]
  }

  /** set_A_to_stack: A := SP */
  function SetAToStack(): seq<Asm> {
    [ASym("SP"), Assign(DestA, RegM)]
  }

  /** push_D_to_stack: *SP := D, then SP := SP + 1 */
  function PushD(): seq<Asm> {
    [ASym("SP"), Assign(DestA, RegM), Assign(DestM, RegD)] + IncSP()
  }

  /** pop_stack_to_D: SP := SP - 1, then D := *SP */
  function PopD(): seq<Asm> {
    DecSP() + [Assign(DestA, RegM), Assign(DestD, RegM)]
  }

  // ------------------------------------------------------------ arithmetic

  /** The operators write_arithmetic knows. */
  datatype Operator = Add | Sub | And | Or | Neg | Not | Eq | Gt | Lt {
    predicate IsUnary() { this == Neg || this == Not }
    predicate IsComparison() { this == Eq || this == Gt || this == Lt }
  }

  /** The operator an arithmetic command names; None for any other text,
      for which write_arithmetic raises ValueError. */
  function OperatorOf(op: string): Option<Operator> {
    if op == "add" then Some(Add) else if op == "sub" then Some(Sub)
    else if op == "and" then Some(And) else if op == "or" then Some(Or)
    else if op == "neg" then Some(Neg) else if op == "not" then Some(Not)
    else if op == "eq" then Some(Eq) else if op == "gt" then Some(Gt)
    else if op == "lt" then Some(Lt) else None
  }

  /** The VM name of an operator. */
  function OperatorName(o: Operator): string {
    match o
    case Add => "add" case Sub => "sub" case And => "and" case Or => "or"
    case Neg => "neg" case Not => "not" case Eq => "eq" case Gt => "gt" case Lt => "lt"
  }

  /** OperatorOf recognises exactly the nine operator names. */
  lemma OperatorNames(op: string, o: Operator)
    ensures OperatorOf(op) == Some(o) <==> op == OperatorName(o)
  {
  }

  function BoolLabel(k: nat): string { "BOOL" + NatToString(k) }

  function EndBoolLabel(k: nat): string { "ENDBOOL" + NatToString(k) }

  /** The jump that write_arithmetic uses for a comparison. */
  function CompareCond(o: Operator): Cond
    requires o.IsComparison()
  {
    if o == Eq then JEQ else if o == Gt then JGT else JLT
  }

  /** The comparison block numbered k: D := x - y, jump to BOOLk when the
      condition holds; otherwise write 0 and jump to ENDBOOLk; at BOOLk
      write -1. */
  function CompareCode(j: Cond, k: nat): seq<Asm> {
    [Assign(DestD, MMinusD), ASym(BoolLabel(k)), Jump(RegD, j)]
    + SetAToStack() + [Assign(DestM, Zero), ASym(EndBoolLabel(k)), Jump(Zero, JMP), Label(BoolLabel(k))]
    + SetAToStack() + [Assign(DestM, MinusOne), Label(EndBoolLabel(k))]
  }

  /** What write_arithmetic writes before it looks at the operator: the
      second operand into D unless the operator is neg or not, then
      A := SP - 1. */
  function ArithmeticPrefix(op: Option<Operator>): seq<Asm> {
    (if op.Some? && op.value.IsUnary() then [] else PopD()) + DecSP() + SetAToStack()
  }

  /** The line that combines the operands, or the comparison block. */
  function OperatorCode(o: Operator, k: nat): seq<Asm> {
    match o
    case Add => [Assign(DestM, MPlusD)]
    case Sub => [Assign(DestM, MMinusD)]
    case And => [Assign(DestM, MAndD)]
    case Or => [Assign(DestM, MOrD)]
    case Neg => [Assign(DestM, NegM)]
    case Not => [Assign(DestM, NotM)]
    case _ => CompareCode(CompareCond(o), k)
  }

  /** Everything write_arithmetic writes for the operator text op when k
      comparisons were written before; for an unknown operator, the
      prefix only. */
  function ArithmeticCode(op: string, k: nat): seq<Asm> {
    var o := OperatorOf(op);
    ArithmeticPrefix(o) + (if o.Some? then OperatorCode(o.value, k) + IncSP() else [])
  }

  // ------------------------------------------------------ memory segments

  /** The memory segments push and pop name. */
  datatype Segment = Constant | Static | Pointer | Temp | Local | Argument | This | That

  /** The segment a push or pop command names; None for any other text,
      for which resolve_address raises ValueError. */
  function SegmentOf(name: string): Option<Segment> {
    if name == "constant" then Some(Constant) else if name == "static" then Some(Static)
    else if name == "pointer" then Some(Pointer) else if name == "temp" then Some(Temp)
    else if name == "local" then Some(Local) else if name == "argument" then Some(Argument)
    else if name == "this" then Some(This) else if name == "that" then Some(That)
    else None
  }

  /** The VM name of a segment. */
  function SegmentName(g: Segment): string {
    match g
    case Constant => "constant" case Static => "static" case Pointer => "pointer"
    case Temp => "temp" case Local => "local" case Argument => "argument"
    case This => "this" case That => "that"
  }

  /** SegmentOf recognises exactly the eight segment names. */
  lemma SegmentNames(name: string, g: Segment)
    ensures SegmentOf(name) == Some(g) <==> name == SegmentName(g)
  {
  }

  /** The values of address_dict: a base-address register, or a fixed
      register number. */
  datatype Address = Register(name: string) | Fixed(base: nat)

  /** address_dict, keyed by segment: constant has no entry. */
  function AddressOf(g: Segment): Option<Address> {
    match g
    case Local => Some(Register("LCL"))
    case Argument => Some(Register("ARG"))
    case This => Some(Register("THIS"))
    case That => Some(Register("THAT"))
    case Pointer => Some(Fixed(3))
    case Temp => Some(Fixed(5))
    case Static => Some(Fixed(16))
    case Constant => None
  }

  /** The text that stands for curr_file in labels: None prints as "None". */
  function FileText(file: Option<string>): string {
    match file
    case Some(f) => f
    case None => "None"
  }

  /** resolve_address for a known segment: code that leaves the address
      of segment[index] in A (the value itself for constant); None for
      static before any file was set, where the source raises TypeError. */
  function ResolveSegment(g: Segment, index: nat, file: Option<string>): Option<seq<Asm>> {
    match g
    case Constant => Some([AConst(index)])
    case Static => if file.Some? then Some([ASym(file.value + "." + NatToString(index))]) else None
    case Pointer => Some([ASym("R" + NatToString(3 + index))])
    case Temp => Some([ASym("R" + NatToString(5 + index))])
    case _ => Some([ASym(AddressOf(g).value.name), Assign(DestD, RegM), AConst(index), Assign(DestA, DPlusA)])
  }

  /** resolve_address; None where the source raises. */
  function ResolveCode(segment: string, index: nat, file: Option<string>): Option<seq<Asm>> {
    match SegmentOf(segment)
    case None => None
    case Some(g) => ResolveSegment(g, index, file)
  }

  /** The code written for a command, and whether the source completes it. */
  datatype Emitted = Emitted(code: seq<Asm>, ok: bool)

  /** push segment index: D := the resolved value, then push D. */
  function PushTail(g: Segment): seq<Asm> {
    [if g == Constant then Assign(DestD, RegA) else Assign(DestD, RegM)] + PushD()
  }

  /** pop segment index: R13 := the resolved address, pop into D, *R13 := D. */
  function PopTail(): seq<Asm> {
    [Assign(DestD, RegA), ASym("R13"), Assign(DestM, RegD)] + PopD()
    + [ASym("R13"), Assign(DestA, RegM), Assign(DestM, RegD)]
  }

  /** write_push_pop: the resolve code, then the push or pop tail; any
      command other than push or pop raises after the resolve code. */
  function PushPopCode(command: CommandType, segment: string, index: nat, file: Option<string>): Emitted {
    match ResolveCode(segment, index, file)
    case None => Emitted([], false)
    case Some(r) =>
      if command == CPush then Emitted(r + PushTail(SegmentOf(segment).value), true)
      else if command == CPop then Emitted(r + PopTail(), true)
      else Emitted(r, false)
  }

  // ----------------------------------------------------------- program flow

  /** '{}${}'.format(curr_file, label): labels are local to the file. */
  function NamespacedLabel(file: Option<string>, target: Option<string>): string {
    FileText(file) + "$" + FileText(target)
  }

  function LabelCode(file: Option<string>, target: Option<string>): seq<Asm> {
    [Label(NamespacedLabel(file, target))]
  }

  function GotoCode(file: Option<string>, target: Option<string>): seq<Asm> {
    [ASym(NamespacedLabel(file, target)), Jump(Zero, JMP)]
  }

  /** if-goto: pop into D and jump when D is not 0. */
  function IfCode(file: Option<string>, target: Option<string>): seq<Asm> {
    PopD() + [ASym(NamespacedLabel(file, target)), Jump(RegD, JNE)]
  }

  // ------------------------------------------------------------- functions

  /** k times: D := 0, push D. */
  function PushZeros(k: nat): seq<Asm> {
    if k == 0 then [] else PushZeros(k - 1) + [Assign(DestD, Zero)] + PushD()
  }

  /** function f k: the entry label, then k local variables set to 0. */
  function FunctionCode(f: string, k: nat): seq<Asm> {
    [Label(f)] + PushZeros(k)
  }

  /** The return label of the call numbered c: f + "RET" + str(c). */
  function RetLabel(f: string, c: nat): string {
    f + "RET" + NatToString(c)
  }

  /** Push the value of a virtual register. */
  function PushRegister(name: string): seq<Asm> {
    [ASym(name), Assign(DestD, RegM)] + PushD()
  }

  /** Push each of the registers, in order. */
  function PushRegisters(names: seq<string>): seq<Asm> {
    if names == [] then [] else PushRegisters(names[..|names| - 1]) + PushRegister(names[|names| - 1])
  }

  /** The registers saved in a call frame, in order. */
  function Saved(): seq<string> { ["LCL", "ARG", "THIS", "THAT"] }

  /** The start of a call: push the return address. */
  function CallHead(f: string, c: nat): seq<Asm> {
    [ASym(RetLabel(f, c)), Assign(DestD, RegA)] + PushD()
  }

  /** The end of a call: LCL := SP; ARG := SP - (n + 5); jump to f; then
      the return label. */
  function CallTail(f: string, n: nat, c: nat): seq<Asm> {
    [ASym("SP"), Assign(DestD, RegM), ASym("LCL"), Assign(DestM, RegD),
     AConst(n + 5), Assign(DestD, DMinusA), ASym("ARG"), Assign(DestM, RegD),
     ASym(f), Jump(Zero, JMP), Label(RetLabel(f, c))]
  }

  /** call f n, the c-th call so far: push the return address and the
      caller's LCL, ARG, THIS and THAT, then the tail. */
  function CallCode(f: string, n: nat, c: nat): seq<Asm> {
    CallHead(f, c) + PushRegisters(Saved()) + CallTail(f, n, c)
  }

  /** dest := *(R13 - offset), R13 holding the frame address. */
  function FrameRead(dest: string, offset: nat): seq<Asm> {
    [ASym("R13"), Assign(DestD, RegM), AConst(offset), Assign(DestD, DMinusA),
     Assign(DestA, RegD), Assign(DestD, RegM), ASym(dest), Assign(DestM, RegD)]
  }

  /** Restore the registers from the frame: the i-th (from 1) from
      *(FRAME - i). */
  function Restores(names: seq<string>): seq<Asm> {
    if names == [] then [] else Restores(names[..|names| - 1]) + FrameRead(names[|names| - 1], |names|)
  }

  /** The registers restored on return, in order. */
  function Restored(): seq<string> { ["THAT", "THIS", "ARG", "LCL"] }

  /** FRAME := LCL, kept in R13. */
  function ReturnHead(): seq<Asm> {
    [ASym("LCL"), Assign(DestD, RegM), ASym("R13"), Assign(DestM, RegD)]
  }

  /** *ARG := D (the popped return value); SP := ARG + 1. */
  function ReturnValue(): seq<Asm> {
    [ASym("ARG"), Assign(DestA, RegM), Assign(DestM, RegD),
     ASym("ARG"), Assign(DestD, RegM), ASym("SP"), Assign(DestM, DPlusOne)]
  }

  /** goto RET, the address saved in R14. */
  function ReturnJump(): seq<Asm> {
    [ASym("R14"), Assign(DestA, RegM), Jump(Zero, JMP)]
  }

  /** return: R13 := LCL; R14 := *(R13 - 5); *ARG := pop; SP := ARG + 1;
      restore THAT, THIS, ARG and LCL; jump to R14. */
  function ReturnCode(): seq<Asm> {
    ReturnHead() + FrameRead("R14", 5) + PopD() + ReturnValue() + Restores(Restored()) + ReturnJump()
  }

  /** write_init: SP := 256, then call Sys.init 0. */
  function InitCode(c: nat): seq<Asm> {
    [AConst(256), Assign(DestD, RegA), ASym("SP"), Assign(DestM, RegD)] + CallCode("Sys.init", 0, c)
  }

  /** The name labels use for a file: ".vm" removed, then the last part
      of the path. */
  function ModuleName(path: string): string {
    LastPart(RemoveAll(path, ".vm"))
  }

  /** s.split('/')[-1] */
  function LastPart(s: string): string {
    var parts := Split(s, '/');
    parts[|parts| - 1]
  }

  /** The name of dir/name.vm, or of name.vm, is name, when no '.' but the
      extension's and no '/' in name get in the way; and a name never
      holds a '/'. */
  lemma ModuleNameOf(dir: string, name: string)
    requires '.' !in dir && '.' !in name && '/' !in name
    ensures ModuleName(dir + "/" + name + ".vm") == name
    ensures ModuleName(name + ".vm") == name
    ensures '/' !in ModuleName(dir + "/" + name + ".vm")
  {
    var path := dir + ['/'] + name;
    assert dir + "/" + name + ".vm" == path + ".vm";
    NoDotInPath(dir, name);
    SplitLast(dir, '/', name);
    assert LastPart(path) == name;
    ModuleNameOfPath(path, name);
    assert Split(name, '/') == [name];
    ModuleNameOfPath(name, name);
  }

  /** A path without '.' whose last '/'-part is name, followed by .vm,
      has the module name name. */
  lemma ModuleNameOfPath(path: string, name: string)
    requires '.' !in path && LastPart(path) == name
    ensures ModuleName(path + ".vm") == name
  {
    RemoveAllSuffix(path, ".vm");
  }

  /** dir/name holds a '.' only where dir or name does. */
  lemma NoDotInPath(dir: string, name: string)
    requires '.' !in dir && '.' !in name
    ensures '.' !in dir + ['/'] + name
  {
    var path := dir + ['/'] + name;
    assert forall i :: 0 <= i < |path| ==> path[i] == (if i < |dir| then dir[i] else if i == |dir| then '/' else name[i - |dir| - 1]);
  }

  /** set_file_name writes two comment lines: "//////" and "// name". */
  function FileHeader(name: string): seq<Asm> {
    [Comment("////"), Comment(" " + name)]
  }

  class CodeWriter {
    /** The lines written so far. */
    var output: seq<Asm>
    var currFile: Option<string>
    /** The number of instruction lines written so far. */
    var lineCount: nat
    /** The number of comparisons written so far. */
    var boolCount: nat
    /** The number of calls written so far. */
    var callCount: nat

    ghost predicate Valid()
      reads this`output, this`lineCount
    {
      lineCount == CodeLines(output)
    }

    constructor ()
      ensures Valid() && output == [] && currFile == None
      ensures boolCount == 0 && callCount == 0
    {
      output := [];
      currFile := None;
      lineCount := 0;
      boolCount := 0;
      callCount := 0;
    }

    /** write: append one line; lines that are instructions are numbered. */
    method Write(i: Asm)
      requires Valid()
      modifies this`output, this`lineCount
      ensures Valid() && output == old(output) + [i]
      ensures lineCount == old(lineCount) + (if IsCode(i) then 1 else 0)
    {
      CodeLinesAppend(output, [i]);
      assert CodeLines([i]) == (if IsCode(i) then 1 else 0) by {
        assert [i][..0] == [];
      }
      output := output + [i];
      if IsCode(i) {
        lineCount := lineCount + 1;
      }
    }

    /** Append a block of lines, one at a time. */
    method WriteAll(code: seq<Asm>)
      requires Valid()
      modifies this`output, this`lineCount
      ensures Valid() && output == old(output) + code
    {
      var k := 0;
      while k < |code|
        invariant 0 <= k <= |code|
        invariant Valid() && output == old(output) + code[..k]
      {
        Write(code[k]);
        assert code[..k + 1] == code[..k] + [code[k]];
        k := k + 1;
      }
      assert code[..k] == code;
    }

    method IncrementSP()
      requires Valid()
      modifies this`output, this`lineCount
      ensures Valid() && output == old(output) + IncSP()
    {
      Write(ASym("SP"));
      Write(Assign(DestM, MPlusOne));
    }

    method DecrementSP()
      requires Valid()
      modifies this`output, this`lineCount
      ensures Valid() && output == old(output) + DecSP()
    {
      Write(ASym("SP"));
      Write(Assign(DestM, MMinusOne));
    }

    method SetAToStackTop()
      requires Valid()
      modifies this`output, this`lineCount
      ensures Valid() && output == old(output) + SetAToStack()
    {
      Write(ASym("SP"));
      Write(Assign(DestA, RegM));
    }

    method PushDToStack()
      requires Valid()
      modifies this`output, this`lineCount
      ensures Valid() && output == old(output) + PushD()
    {
      Write(ASym("SP"));
      Write(Assign(DestA, RegM));
      Write(Assign(DestM, RegD));
      IncrementSP();
    }

    method PopStackToD()
      requires Valid()
      modifies this`output, this`lineCount
      ensures Valid() && output == old(output) + PopD()
    {
      DecrementSP();
      Write(Assign(DestA, RegM));
      Write(Assign(DestD, RegM));
    }

    /** write_init */
    method WriteInit()
      requires Valid()
      modifies this`output, this`lineCount, this`callCount
      ensures Valid() && output == old(output) + InitCode(old(callCount))
      ensures callCount == old(callCount) + 1
    {
      ghost var first := output;
      ghost var c := callCount;
      var setSP := [AConst(256), Assign(DestD, RegA), ASym("SP"), Assign(DestM, RegD)];
      WriteAll(setSP);
      WriteCall("Sys.init", 0);
      AppendAssoc(first, setSP, CallCode("Sys.init", 0, c));
    }

    /** set_file_name */
    method SetFileName(path: string)
      requires Valid()
      modifies this`output, this`lineCount, this`currFile
      ensures Valid() && currFile == Some(ModuleName(path))
      ensures output == old(output) + FileHeader(ModuleName(path))
    {
      currFile := Some(ModuleName(path));
      Write(Comment("////"));
      Write(Comment(" " + currFile.value));
    }

    /** write_arithmetic; ok is false where the source raises ValueError. */
    method WriteArithmetic(op: string) returns (ok: bool)
      requires Valid()
      modifies this`output, this`lineCount, this`boolCount
      ensures Valid() && ok == OperatorOf(op).Some?
      ensures output == old(output) + ArithmeticCode(op, old(boolCount))
      ensures boolCount == old(boolCount) + (if ok && OperatorOf(op).value.IsComparison() then 1 else 0)
    {
      var o := OperatorOf(op);
      ghost var start := output;
      ghost var pop: seq<Asm> := if o.Some? && o.value.IsUnary() then [] else PopD();
      if !(o.Some? && o.value.IsUnary()) {
        PopStackToD();
      } else {
        assert start + pop == start;
      }
      DecrementSP();
      SetAToStackTop();
      AppendAssoc(start, pop, DecSP());
      AppendAssoc(start, pop + DecSP(), SetAToStack());
      ghost var prefix := ArithmeticPrefix(o);
      assert output == start + prefix;
      ok := o.Some?;
      if ok {
        ghost var rest := OperatorCode(o.value, old(boolCount));
        WriteOperator(o.value);
        IncrementSP();
        AppendAssoc(start + prefix, rest, IncSP());
        AppendAssoc(start, prefix, rest + IncSP());
      } else {
        assert prefix + [] == prefix;
      }
    }

    /** The branches of write_arithmetic for the operators it knows. */
    method WriteOperator(o: Operator)
      requires Valid()
      modifies this`output, this`lineCount, this`boolCount
      ensures Valid() && output == old(output) + OperatorCode(o, old(boolCount))
      ensures boolCount == old(boolCount) + (if o.IsComparison() then 1 else 0)
    {
      match o {
        case Add => Write(Assign(DestM, MPlusD));
        case Sub => Write(Assign(DestM, MMinusD));
        case And => Write(Assign(DestM, MAndD));
        case Or => Write(Assign(DestM, MOrD));
        case Neg => Write(Assign(DestM, NegM));
        case Not => Write(Assign(DestM, NotM));
        case Eq | Gt | Lt =>
          WriteComparison(CompareCond(o));
          assert OperatorCode(o, old(boolCount)) == CompareCode(CompareCond(o), old(boolCount));
      }
    }

    /** The comparison branch of write_arithmetic: the block numbered
        bool_count, after which bool_count goes up by one. */
    method WriteComparison(j: Cond)
      requires Valid()
      modifies this`output, this`lineCount, this`boolCount
      ensures Valid() && output == old(output) + CompareCode(j, old(boolCount))
      ensures boolCount == old(boolCount) + 1
    {
      var k := boolCount;
      WriteAll([Assign(DestD, MMinusD), ASym(BoolLabel(k)), Jump(RegD, j)]);
      SetAToStackTop();
      WriteAll([Assign(DestM, Zero), ASym(EndBoolLabel(k)), Jump(Zero, JMP), Label(BoolLabel(k))]);
      SetAToStackTop();
      WriteAll([Assign(DestM, MinusOne), Label(EndBoolLabel(k))]);
      boolCount := boolCount + 1;
    }

    /** resolve_address; false where the source raises. */
    method ResolveAddress(segment: string, index: nat) returns (ok: bool)
      requires Valid()
      modifies this`output, this`lineCount
      ensures Valid() && ok == ResolveCode(segment, index, currFile).Some?
      ensures output == old(output) + (if ok then ResolveCode(segment, index, currFile).value else [])
    {
      var g := SegmentOf(segment);
      ok := true;
      if g.None? {
        ok := false;
        assert output == old(output) + [];
        return;
      }
      match g.value {
        case Constant =>
          Write(AConst(index));
        case Static =>
          if currFile.Some? {
            Write(ASym(currFile.value + "." + NatToString(index)));
          } else {
            ok := false;
            assert output == old(output) + [];
          }
        case Pointer =>
          Write(ASym("R" + NatToString(AddressOf(g.value).value.base + index)));
        case Temp =>
          Write(ASym("R" + NatToString(AddressOf(g.value).value.base + index)));
        case _ =>
          WriteAll([ASym(AddressOf(g.value).value.name), Assign(DestD, RegM), AConst(index), Assign(DestA, DPlusA)]);
      }
    }

    /** write_push_pop */
    method WritePushPop(command: CommandType, segment: string, index: nat) returns (ok: bool)
      requires Valid()
      modifies this`output, this`lineCount
      ensures Valid()
      ensures ok == PushPopCode(command, segment, index, currFile).ok
      ensures output == old(output) + PushPopCode(command, segment, index, currFile).code
    {
      ghost var start := output;
      ok := ResolveAddress(segment, index);
      if !ok {
        assert start + [] == start;
        return;
      }
      ghost var r := ResolveCode(segment, index, currFile).value;
      if command == CPush {
        var load := if SegmentOf(segment) == Some(Constant) then Assign(DestD, RegA) else Assign(DestD, RegM);
        Write(load);
        PushDToStack();
        AppendAssoc(start + r, [load], PushD());
        AppendAssoc(start, r, PushTail(SegmentOf(segment).value));
      } else if command == CPop {
        WriteAll([Assign(DestD, RegA), ASym("R13"), Assign(DestM, RegD)]);
        PopStackToD();
        WriteAll([ASym("R13"), Assign(DestA, RegM), Assign(DestM, RegD)]);
        AppendAssoc(start + r, [Assign(DestD, RegA), ASym("R13"), Assign(DestM, RegD)], PopD());
        AppendAssoc(start + r, [Assign(DestD, RegA), ASym("R13"), Assign(DestM, RegD)] + PopD(),
                    [ASym("R13"), Assign(DestA, RegM), Assign(DestM, RegD)]);
        AppendAssoc(start, r, PopTail());
      } else {
        ok := false;
      }
    }

    /** write_label */
    method WriteLabel(target: Option<string>)
      requires Valid()
      modifies this`output, this`lineCount
      ensures Valid() && output == old(output) + LabelCode(currFile, target)
    {
      Write(Label(NamespacedLabel(currFile, target)));
    }

    /** write_goto */
    method WriteGoto(target: Option<string>)
      requires Valid()
      modifies this`output, this`lineCount
      ensures Valid() && output == old(output) + GotoCode(currFile, target)
    {
      Write(ASym(NamespacedLabel(currFile, target)));
      Write(Jump(Zero, JMP));
    }

    /** write_if */
    method WriteIf(target: Option<string>)
      requires Valid()
      modifies this`output, this`lineCount
      ensures Valid() && output == old(output) + IfCode(currFile, target)
    {
      PopStackToD();
      Write(ASym(NamespacedLabel(currFile, target)));
      Write(Jump(RegD, JNE));
    }

    /** write_function */
    method WriteFunction(f: string, k: nat)
      requires Valid()
      modifies this`output, this`lineCount
      ensures Valid() && output == old(output) + FunctionCode(f, k)
    {
      Write(Label(f));
      for i := 0 to k
        invariant Valid() && output == old(output) + [Label(f)] + PushZeros(i)
      {
        Write(Assign(DestD, Zero));
        PushDToStack();
      }
    }

    /** write_call */
    method WriteCall(f: string, n: nat)
      requires Valid()
      modifies this`output, this`lineCount, this`callCount
      ensures Valid()
      ensures output == old(output) + CallCode(f, n, old(callCount))
      ensures callCount == old(callCount) + 1
    {
      ghost var first := output;
      var c := callCount;
      var ret := f + "RET" + NatToString(c);
      callCount := callCount + 1;
      WriteAll([ASym(ret), Assign(DestD, RegA)]);
      PushDToStack();
      AppendAssoc(first, [ASym(ret), Assign(DestD, RegA)], PushD());
      ghost var start := output;
      assert start == first + CallHead(f, c);
      var registers := ["LCL", "ARG", "THIS", "THAT"];
      for i := 0 to |registers|
        invariant Valid() && output == start + PushRegisters(registers[..i])
        invariant callCount == c + 1
      {
        ghost var before := output;
        WriteAll([ASym(registers[i]), Assign(DestD, RegM)]);
        PushDToStack();
        AppendAssoc(before, [ASym(registers[i]), Assign(DestD, RegM)], PushD());
        assert registers[..i + 1][..i] == registers[..i];
        AppendAssoc(start, PushRegisters(registers[..i]), PushRegister(registers[i]));
      }
      assert registers[..4] == Saved();
      // LCL := SP; ARG := SP - (n + 5); goto f; (return address)
      WriteAll([ASym("SP"), Assign(DestD, RegM), ASym("LCL"), Assign(DestM, RegD),
                AConst(n + 5), Assign(DestD, DMinusA), ASym("ARG"), Assign(DestM, RegD),
                ASym(f), Jump(Zero, JMP), Label(ret)]);
      ghost var tail := CallTail(f, n, c);
      AppendAssoc(first, CallHead(f, c), PushRegisters(Saved()));
      AppendAssoc(first, CallHead(f, c) + PushRegisters(Saved()), tail);
    }

    /** write_return */
    method WriteReturn()
      requires Valid()
      modifies this`output, this`lineCount
      ensures Valid() && output == old(output) + ReturnCode()
    {
      ghost var first := output;
      WriteAll(ReturnHead());
      WriteAll(FrameRead("R14", 5));
      PopStackToD();
      WriteAll(ReturnValue());
      ghost var start := output;
      var registers := ["THAT", "THIS", "ARG", "LCL"];
      var offset := 1;
      for i := 0 to |registers|
        invariant offset == i + 1
        invariant Valid() && output == start + Restores(registers[..i])
      {
        WriteAll(FrameRead(registers[i], offset));
        offset := offset + 1;
        assert registers[..i + 1][..i] == registers[..i];
        AppendAssoc(start, Restores(registers[..i]), FrameRead(registers[i], i + 1));
      }
      assert registers[..4] == Restored();
      WriteAll(ReturnJump());
      ghost var h := ReturnHead();
      ghost var r := FrameRead("R14", 5);
      AppendAssoc(first, h, r);
      AppendAssoc(first, h + r, PopD());
      AppendAssoc(first, h + r + PopD(), ReturnValue());
      AppendAssoc(first, h + r + PopD() + ReturnValue(), Restores(Restored()));
      AppendAssoc(first, h + r + PopD() + ReturnValue() + Restores(Restored()), ReturnJump());
    }
  }
}
