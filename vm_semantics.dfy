/** What the code the CodeWriter emits does on the Hack machine. The VM's
    stack lives in RAM above the registers; its pointer is RAM[SP] (cell
    0), its segment bases are RAM[LCL..THAT] (cells 1 to 4), and the
    symbols the code uses are resolved by an environment that agrees with
    the assembler's predefined symbols. Memory is word-addressed, so
    "the stack top" is the cell below SP. */
module VmSemantics {
  import opened Wrappers
  import opened Text
  import opened Hack
  import opened HackMachine
  import opened VmParser
  import opened VmWriter

  /** The environment resolves the registers the code names as the
      predefined symbols do. */
  ghost predicate Registers(env: Env) {
    Lookup(env, "SP") == 0 && Lookup(env, "LCL") == 1 && Lookup(env, "ARG") == 2
    && Lookup(env, "THIS") == 3 && Lookup(env, "THAT") == 4
    && Lookup(env, "R13") == 13 && Lookup(env, "R14") == 14
  }

  /** The environment resolves R0 to R15, the names pointer and temp
      build, to cells 0 to 15. */
  ghost predicate NumberedRegisters(env: Env) {
    forall i: nat :: i < 16 ==> Lookup(env, "R" + NatToString(i)) == i
  }

  /** "R" + str(i), for i below 16, is the predefined symbol of cell i. */
  lemma RegisterName(i: nat)
    requires i < 16
    ensures var name := "R" + NatToString(i); name in Predefined() && Predefined()[name] == i
  {
    if i < 4 {
      RegisterNames0(i);
    } else if i < 8 {
      RegisterNames4(i);
    } else if i < 12 {
      RegisterNames8(i);
    } else {
      RegisterNames12(i);
    }
  }

  /** The names of RegisterName, four at a time. */
  lemma RegisterNames0(i: nat)
    requires i < 4
    ensures var name := "R" + NatToString(i); name in Predefined() && Predefined()[name] == i
  {
    var name := "R" + NatToString(i);
    if i == 0 { assert name == "R0"; }
    else if i == 1 { assert name == "R1"; }
    else if i == 2 { assert name == "R2"; }
    else { assert name == "R3"; }
  }

  lemma RegisterNames4(i: nat)
    requires 4 <= i < 8
    ensures var name := "R" + NatToString(i); name in Predefined() && Predefined()[name] == i
  {
    var name := "R" + NatToString(i);
    if i == 4 { assert name == "R4"; }
    else if i == 5 { assert name == "R5"; }
    else if i == 6 { assert name == "R6"; }
    else { assert name == "R7"; }
  }

  lemma RegisterNames8(i: nat)
    requires 8 <= i < 12
    ensures var name := "R" + NatToString(i); name in Predefined() && Predefined()[name] == i
  {
    var name := "R" + NatToString(i);
    if i == 8 { assert name == "R8"; }
    else if i == 9 { assert name == "R9"; }
    else if i == 10 { assert name == "R10"; }
    else { assert name == "R11"; }
  }

  lemma RegisterNames12(i: nat)
    requires 12 <= i < 16
    ensures var name := "R" + NatToString(i); name in Predefined() && Predefined()[name] == i
  {
    var name := "R" + NatToString(i);
    if i == 12 { assert name == "R12"; }
    else if i == 13 { assert name == "R13"; }
    else if i == 14 { assert name == "R14"; }
    else { assert name == "R15"; }
  }

  /** An environment that contains the predefined symbols resolves R0 to R15. */
  lemma PredefinedNumbered(env: Env)
    requires forall name :: name in Predefined() ==> name in env && env[name] == Predefined()[name]
    ensures NumberedRegisters(env)
  {
    forall i: nat | i < 16
      ensures Lookup(env, "R" + NatToString(i)) == i
    {
      RegisterName(i);
    }
  }

  /** An environment that contains the predefined symbols resolves the
      registers, R0 to R15 among them. */
  lemma PredefinedRegisters(env: Env)
    requires forall name :: name in Predefined() ==> name in env && env[name] == Predefined()[name]
    ensures Registers(env) && NumberedRegisters(env)
  {
    PredefinedNumbered(env);
    var p := Predefined();
    assert "SP" in p && p["SP"] == 0;
    assert "LCL" in p && p["LCL"] == 1;
    assert "ARG" in p && p["ARG"] == 2;
    assert "THIS" in p && p["THIS"] == 3;
    assert "THAT" in p && p["THAT"] == 4;
    assert "R13" in p && p["R13"] == 13;
    assert "R14" in p && p["R14"] == 14;
  }

  /** The two memories agree outside the given cells. */
  ghost predicate SameExcept(r1: Ram, r2: Ram, changed: set<int>) {
    forall j: Word :: j !in changed ==> Read(r1, j) == Read(r2, j)
  }

  // ------------------------------------------------ straight-line stepping

  lemma Run1(c: seq<Asm>, env: Env, s: State)
    requires |c| == 1
    ensures Run(c, env, s) == Exec1(c[0], env, s)
  {
    assert c[1..] == [];
  }

  lemma Run2(c: seq<Asm>, env: Env, s: State)
    requires |c| == 2
    ensures Run(c, env, s) == Exec1(c[1], env, Exec1(c[0], env, s))
  {
    Run1(c[1..], env, Exec1(c[0], env, s));
  }

  lemma Run3(c: seq<Asm>, env: Env, s: State)
    requires |c| == 3
    ensures Run(c, env, s) == Exec1(c[2], env, Exec1(c[1], env, Exec1(c[0], env, s)))
  {
    Run2(c[1..], env, Exec1(c[0], env, s));
  }

  lemma Run4(c: seq<Asm>, env: Env, s: State)
    requires |c| == 4
    ensures Run(c, env, s) == Exec1(c[3], env, Exec1(c[2], env, Exec1(c[1], env, Exec1(c[0], env, s))))
  {
    Run3(c[1..], env, Exec1(c[0], env, s));
  }

  // ------------------------------------------------------- stack helpers

  lemma IncSPEffect(env: Env, s: State)
    requires Registers(env) && SP(s) < 0xFFFF
    ensures Run(IncSP(), env, s) == s.(pc := s.pc + 2, a := 0, ram := s.ram[0 := SP(s) + 1])
  {
    Run2(IncSP(), env, s);
  }

  lemma DecSPEffect(env: Env, s: State)
    requires Registers(env) && SP(s) > 0
    ensures Run(DecSP(), env, s) == s.(pc := s.pc + 2, a := 0, ram := s.ram[0 := SP(s) - 1])
  {
    Run2(DecSP(), env, s);
  }

  lemma SetAToStackEffect(env: Env, s: State)
    requires Registers(env)
    ensures Run(SetAToStack(), env, s) == s.(pc := s.pc + 2, a := SP(s))
  {
    Run2(SetAToStack(), env, s);
  }

  /** push_D_to_stack: D goes to the cell SP points at, and SP moves up. */
  lemma PushDEffect(env: Env, s: State)
    requires Registers(env) && 0 < SP(s) < 0xFFFF
    ensures Run(PushD(), env, s) == s.(pc := s.pc + 5, a := 0, ram := s.ram[SP(s) := s.d][0 := SP(s) + 1])
  {
    var c := [ASym("SP"), Assign(DestA, RegM), Assign(DestM, RegD)];
    RunAppend(c, IncSP(), env, s);
    Run3(c, env, s);
    IncSPEffect(env, Run(c, env, s));
  }

  /** pop_stack_to_D: SP moves down, and D holds the cell it then points at. */
  lemma PopDEffect(env: Env, s: State)
    requires Registers(env) && SP(s) >= 2
    ensures Run(PopD(), env, s)
         == s.(pc := s.pc + 4, a := SP(s) - 1, d := Read(s.ram, SP(s) - 1), ram := s.ram[0 := SP(s) - 1])
  {
    var c := [Assign(DestA, RegM), Assign(DestD, RegM)];
    RunAppend(DecSP(), c, env, s);
    DecSPEffect(env, s);
    Run2(c, env, Run(DecSP(), env, s));
  }

  // ------------------------------------------------------- push and pop

  /** The address resolve_address leaves in A: the constant itself, the
      file's static variable, a register, or the segment base plus the
      index (in 16-bit arithmetic). */
  ghost function Target(g: Segment, index: nat, file: Option<string>, env: Env, s: State): Word
    requires ResolveSegment(g, index, file).Some?
  {
    match g
    case Constant => Wrap(index)
    case Static => Lookup(env, file.value + "." + NatToString(index))
    case Pointer => Lookup(env, "R" + NatToString(3 + index))
    case Temp => Lookup(env, "R" + NatToString(5 + index))
    case _ => Wrap(Read(s.ram, Lookup(env, AddressOf(g).value.name)) as int + index)
  }

  /** The single A-instruction of constant, static, pointer and temp. */
  predicate IsLoad(i: Asm) { i.AConst? || i.ASym? }

  /** The address an A-instruction loads. */
  function LoadValue(i: Asm, env: Env): Word
    requires IsLoad(i)
  {
    if i.AConst? then Wrap(i.value) else Lookup(env, i.symbol)
  }

  /** The resolve code of local, argument, this and that for a base register. */
  function BaseCode(name: string, index: nat): seq<Asm> {
    [ASym(name), Assign(DestD, RegM), AConst(index), Assign(DestA, DPlusA)]
  }

  lemma WrapAdd(d: int, n: int)
    ensures Wrap(d + Wrap(n)) == Wrap(d + n)
  {
    var q := n / 0x10000;
    assert n == q * 0x10000 + Wrap(n);
    assert d + n == (d + Wrap(n)) + q * 0x10000;
  }

  /** The base code leaves base + index in A and changes no memory. */
  lemma BaseEffect(name: string, index: nat, env: Env, s: State)
    ensures var t := Run(BaseCode(name, index), env, s);
      t.pc == s.pc + 4 && t.a == Wrap(Read(s.ram, Lookup(env, name)) as int + index) && t.ram == s.ram
  {
    Run4(BaseCode(name, index), env, s);
    WrapAdd(Read(s.ram, Lookup(env, name)), index);
  }

  /** A value loaded into A, then the push tail. */
  lemma PushLoadEffect(i: Asm, g: Segment, env: Env, s: State)
    requires IsLoad(i) && Registers(env) && 0 < SP(s) < 0xFFFF
    ensures var addr := LoadValue(i, env); var v := if g == Constant then addr else Read(s.ram, addr);
      var t := Run([i] + PushTail(g), env, s);
      t.pc == s.pc + 7 && t.ram == s.ram[SP(s) := v][0 := SP(s) + 1]
  {
    RunAppend([i], PushTail(g), env, s);
    Run1([i], env, s);
    PushTailEffect(g, env, Exec1(i, env, s));
  }

  /** The base code, then the push tail. */
  lemma PushBaseEffect(name: string, index: nat, env: Env, s: State)
    requires Registers(env) && 0 < SP(s) < 0xFFFF
    ensures var addr := Wrap(Read(s.ram, Lookup(env, name)) as int + index);
      var t := Run(BaseCode(name, index) + PushTail(Local), env, s);
      t.pc == s.pc + 10 && t.ram == s.ram[SP(s) := Read(s.ram, addr)][0 := SP(s) + 1]
  {
    RunAppend(BaseCode(name, index), PushTail(Local), env, s);
    BaseEffect(name, index, env, s);
    PushTailEffect(Local, env, Run(BaseCode(name, index), env, s));
  }

  /** A value loaded into A, then the pop tail. */
  lemma PopLoadEffect(i: Asm, env: Env, s: State)
    requires IsLoad(i) && Registers(env) && 16 <= SP(s)
    ensures var addr := LoadValue(i, env); var t := Run([i] + PopTail(), env, s);
      t.pc == s.pc + 11 && t.ram == s.ram[13 := addr][0 := SP(s) - 1][addr := Read(s.ram, SP(s) - 1)]
  {
    RunAppend([i], PopTail(), env, s);
    Run1([i], env, s);
    PopTailEffect(env, Exec1(i, env, s));
  }

  /** The base code, then the pop tail. */
  lemma PopBaseEffect(name: string, index: nat, env: Env, s: State)
    requires Registers(env) && 16 <= SP(s)
    ensures var addr := Wrap(Read(s.ram, Lookup(env, name)) as int + index);
      var t := Run(BaseCode(name, index) + PopTail(), env, s);
      t.pc == s.pc + 14 && t.ram == s.ram[13 := addr][0 := SP(s) - 1][addr := Read(s.ram, SP(s) - 1)]
  {
    RunAppend(BaseCode(name, index), PopTail(), env, s);
    BaseEffect(name, index, env, s);
    PopTailEffect(env, Run(BaseCode(name, index), env, s));
  }

  /** The value push puts on the stack: the constant, or the cell at the target. */
  ghost function PushedValue(g: Segment, index: nat, file: Option<string>, env: Env, s: State): Word
    requires ResolveSegment(g, index, file).Some?
  {
    if g == Constant then Wrap(index) else Read(s.ram, Target(g, index, file, env, s))
  }

  /** The push tail: D := A for constant, D := M otherwise, then push D. */
  lemma PushTailEffect(g: Segment, env: Env, s: State)
    requires Registers(env) && 0 < SP(s) < 0xFFFF
    ensures var v := if g == Constant then s.a else Read(s.ram, s.a);
      Run(PushTail(g), env, s) == s.(pc := s.pc + 6, a := 0, d := v, ram := s.ram[SP(s) := v][0 := SP(s) + 1])
  {
    var load := [if g == Constant then Assign(DestD, RegA) else Assign(DestD, RegM)];
    RunAppend(load, PushD(), env, s);
    Run1(load, env, s);
    PushDEffect(env, Run(load, env, s));
  }

  /** The pop tail: R13 := A, pop into D, *R13 := D. */
  lemma PopTailEffect(env: Env, s: State)
    requires Registers(env) && 16 <= SP(s)
    ensures var t := Run(PopTail(), env, s);
      t.pc == s.pc + 10
      && t.ram == s.ram[13 := s.a][0 := SP(s) - 1][s.a := Read(s.ram, SP(s) - 1)]
  {
    var save := [Assign(DestD, RegA), ASym("R13"), Assign(DestM, RegD)];
    var store := [ASym("R13"), Assign(DestA, RegM), Assign(DestM, RegD)];
    RunAppend(save + PopD(), store, env, s);
    RunAppend(save, PopD(), env, s);
    Run3(save, env, s);
    var s2 := Run(save, env, s);
    assert s2.ram == s.ram[13 := s.a];
    PopDEffect(env, s2);
    var s3 := Run(PopD(), env, s2);
    Run3(store, env, s3);
  }

  /** push on a segment: the pushed value is on top, SP went up by one,
      and nothing else changed. */
  lemma PushSegmentEffect(g: Segment, index: nat, file: Option<string>, env: Env, s: State)
    requires Registers(env) && 0 < SP(s) < 0xFFFF && ResolveSegment(g, index, file).Some?
    ensures var c := ResolveSegment(g, index, file).value + PushTail(g); var t := Run(c, env, s);
      t.pc == s.pc + |c|
      && t.ram == s.ram[SP(s) := PushedValue(g, index, file, env, s)][0 := SP(s) + 1]
  {
    var r := ResolveSegment(g, index, file).value;
    if g.Constant? || g.Static? || g.Pointer? || g.Temp? {
      PushLoadEffect(r[0], g, env, s);
      assert [r[0]] == r;
    } else {
      var name := AddressOf(g).value.name;
      assert r == BaseCode(name, index) && PushTail(g) == PushTail(Local);
      PushBaseEffect(name, index, env, s);
    }
  }

  /** pop on a segment: R13 holds the target, SP went down by one, and
      the old stack top is at the target. */
  lemma PopSegmentEffect(g: Segment, index: nat, file: Option<string>, env: Env, s: State)
    requires Registers(env) && 16 <= SP(s) && ResolveSegment(g, index, file).Some?
    ensures var c := ResolveSegment(g, index, file).value + PopTail(); var t := Run(c, env, s);
      var addr := Target(g, index, file, env, s);
      t.pc == s.pc + |c|
      && t.ram == s.ram[13 := addr][0 := SP(s) - 1][addr := Read(s.ram, SP(s) - 1)]
  {
    var r := ResolveSegment(g, index, file).value;
    if g.Constant? || g.Static? || g.Pointer? || g.Temp? {
      PopLoadEffect(r[0], env, s);
      assert [r[0]] == r;
    } else {
      var name := AddressOf(g).value.name;
      assert r == BaseCode(name, index);
      PopBaseEffect(name, index, env, s);
    }
  }

  /** push segment index: the value lands in the cell SP pointed at, SP
      goes up by one, and no other cell changes. */
  lemma PushEffect(segment: string, index: nat, file: Option<string>, env: Env, s: State)
    requires Registers(env) && 0 < SP(s) < 0xFFFF
    requires PushPopCode(CPush, segment, index, file).ok
    ensures var g := SegmentOf(segment).value;
      var t := Run(PushPopCode(CPush, segment, index, file).code, env, s);
      t.pc == s.pc + |PushPopCode(CPush, segment, index, file).code|
      && SP(t) == SP(s) + 1
      && Read(t.ram, SP(s)) == PushedValue(g, index, file, env, s)
      && SameExcept(t.ram, s.ram, {0, SP(s)})
  {
    var g := SegmentOf(segment).value;
    assert PushPopCode(CPush, segment, index, file).code == ResolveSegment(g, index, file).value + PushTail(g);
    PushSegmentEffect(g, index, file, env, s);
  }

  /** pop segment index: the stack top lands in the target cell, SP goes
      down by one (unless the target is SP itself), and no other cell
      changes but R13, which holds the target address on the way. */
  lemma PopEffect(segment: string, index: nat, file: Option<string>, env: Env, s: State)
    requires Registers(env) && 16 <= SP(s)
    requires PushPopCode(CPop, segment, index, file).ok
    ensures var addr := Target(SegmentOf(segment).value, index, file, env, s);
      var t := Run(PushPopCode(CPop, segment, index, file).code, env, s);
      t.pc == s.pc + |PushPopCode(CPop, segment, index, file).code|
      && Read(t.ram, addr) == Read(s.ram, SP(s) - 1)
      && SP(t) == (if addr == 0 then Read(s.ram, SP(s) - 1) else SP(s) - 1)
      && SameExcept(t.ram, s.ram, {0, 13, addr})
  {
    var g := SegmentOf(segment).value;
    assert PushPopCode(CPop, segment, index, file).code == ResolveSegment(g, index, file).value + PopTail();
    PopSegmentEffect(g, index, file, env, s);
  }

  /** pointer i names R(3 + i) and temp i names R(5 + i): below R16 these
      are the cells 3 + i and 5 + i. */
  lemma RegisterTargets(index: nat, file: Option<string>, env: Env, s: State)
    requires NumberedRegisters(env)
    ensures index < 13 ==> Target(Pointer, index, file, env, s) == 3 + index
    ensures index < 11 ==> Target(Temp, index, file, env, s) == 5 + index
  {
  }

  /** push pointer i and push temp i copy the cell 3 + i or 5 + i onto the
      stack. */
  lemma PushRegisterEffect(segment: string, index: nat, file: Option<string>, env: Env, s: State)
    requires Registers(env) && NumberedRegisters(env) && 0 < SP(s) < 0xFFFF
    requires (segment == "pointer" && index < 13) || (segment == "temp" && index < 11)
    ensures var cell := (if segment == "pointer" then 3 else 5) + index;
      var t := Run(PushPopCode(CPush, segment, index, file).code, env, s);
      SP(t) == SP(s) + 1 && Read(t.ram, SP(s)) == Read(s.ram, cell)
      && SameExcept(t.ram, s.ram, {0, SP(s)})
  {
    PushEffect(segment, index, file, env, s);
    RegisterTargets(index, file, env, s);
  }

  /** pop pointer i and pop temp i move the stack top into the cell 3 + i
      or 5 + i. */
  lemma PopRegisterEffect(segment: string, index: nat, file: Option<string>, env: Env, s: State)
    requires Registers(env) && NumberedRegisters(env) && 16 <= SP(s)
    requires (segment == "pointer" && index < 13) || (segment == "temp" && index < 11)
    ensures var cell := (if segment == "pointer" then 3 else 5) + index;
      var t := Run(PushPopCode(CPop, segment, index, file).code, env, s);
      SP(t) == SP(s) - 1 && Read(t.ram, cell) == Read(s.ram, SP(s) - 1)
      && SameExcept(t.ram, s.ram, {0, 13, cell})
  {
    PopEffect(segment, index, file, env, s);
    RegisterTargets(index, file, env, s);
  }

  // ---------------------------------------------------------- arithmetic

  /** The VM's truth values: true is -1 (all bits set), false is 0. */
  function VmBool(b: bool): Word { if b then 0xFFFF else 0 }

  /** What a binary VM command means, x being the operand below the top
      and y the top: 16-bit two's-complement arithmetic, bitwise logic,
      and comparisons of the signed values. */
  function VmBinary(o: Operator, x: Word, y: Word): Word
    requires !o.IsUnary()
  {
    match o
    case Add => Wrap(x as int + y)
    case Sub => Wrap(x as int - y)
    case And => BitAnd(x, y)
    case Or => BitOr(x, y)
    case Eq => VmCompare(o, x, y)
    case Gt => VmCompare(o, x, y)
    case Lt => VmCompare(o, x, y)
  }

  /** What eq, gt and lt mean: their truth value on the signed operands. */
  function VmCompare(o: Operator, x: Word, y: Word): Word
    requires o.IsComparison()
  {
    VmBool(if o == Eq then x == y else if o == Gt then Signed(x) > Signed(y) else Signed(x) < Signed(y))
  }

  /** What a unary VM command means on the top y. */
  function VmUnary(o: Operator, y: Word): Word
    requires o.IsUnary()
  {
    if o == Neg then Wrap(-(y as int)) else BitNot(y)
  }

  /** What the comparison block computes: it tests x - y in 16 bits. */
  function MachineCompare(o: Operator, x: Word, y: Word): Word
    requires o.IsComparison()
  {
    VmBool(Taken(CompareCond(o), Wrap(x as int - y)))
  }

  /** The difference of the signed operands fits in 16 bits. */
  predicate NoOverflow(x: Word, y: Word) {
    -0x8000 <= Signed(x) - Signed(y) < 0x8000
  }

  /** eq is always right; gt and lt are right unless x - y overflows. */
  lemma CompareAgrees(o: Operator, x: Word, y: Word)
    requires o.IsComparison() && (o == Eq || NoOverflow(x, y))
    ensures MachineCompare(o, x, y) == VmCompare(o, x, y)
  {
    if o != Eq {
      assert Wrap(x as int - y) == Wrap(Signed(x) - Signed(y));
      if Signed(x) - Signed(y) < 0 {
        assert Signed(Wrap(x as int - y)) == Signed(x) - Signed(y);
      }
    }
  }

  /** When x - y overflows, gt gets it wrong: 32767 > -32768, yet the
      block sees a negative difference. */
  lemma GtOverflow()
    ensures !NoOverflow(0x7FFF, 0x8000)
    ensures MachineCompare(Gt, 0x7FFF, 0x8000) == 0 && VmBinary(Gt, 0x7FFF, 0x8000) == 0xFFFF
  {
  }

  /** What the operator line computes from M and D, for the operators
      that are one line. */
  function MachineOp(o: Operator, m: Word, d: Word): Word
    requires !o.IsComparison()
  {
    match o
    case Add => Wrap(m as int + d)
    case Sub => Wrap(m as int - d)
    case And => BitAnd(m, d)
    case Or => BitOr(m, d)
    case Neg => Wrap(-(m as int))
    case Not => BitNot(m)
  }

  /** The cell an arithmetic command leaves its result in, for a stack
      pointer sp: the top for neg and not, the cell below it otherwise. */
  function ResultCell(o: Operator, sp: int): int {
    if o.IsUnary() then sp - 1 else sp - 2
  }

  /** The prefix pops the top into D (binary operators), moves SP down to
      the result cell and points A at it. */
  lemma PrefixEffect(o: Operator, env: Env, s: State)
    requires Registers(env) && 3 <= SP(s)
    ensures var t := Run(ArithmeticPrefix(Some(o)), env, s); var r := ResultCell(o, SP(s));
      t.pc == s.pc + |ArithmeticPrefix(Some(o))| && t.a == r && t.ram == s.ram[0 := r]
      && t.d == (if o.IsUnary() then s.d else Read(s.ram, SP(s) - 1))
  {
    var tail := DecSP() + SetAToStack();
    RunAppend(DecSP(), SetAToStack(), env, s);
    if o.IsUnary() {
      assert ArithmeticPrefix(Some(o)) == tail;
      DecSPEffect(env, s);
      SetAToStackEffect(env, Run(DecSP(), env, s));
    } else {
      AppendAssoc(PopD(), DecSP(), SetAToStack());
      RunAppend(PopD(), tail, env, s);
      PopDEffect(env, s);
      var s1 := Run(PopD(), env, s);
      RunAppend(DecSP(), SetAToStack(), env, s1);
      DecSPEffect(env, s1);
      SetAToStackEffect(env, Run(DecSP(), env, s1));
      assert s.ram[0 := SP(s) - 1][0 := SP(s) - 2] == s.ram[0 := SP(s) - 2];
    }
  }

  /** The computation of a one-line operator. */
  function OperatorComp(o: Operator): Comp
    requires !o.IsComparison()
  {
    match o
    case Add => MPlusD case Sub => MMinusD case And => MAndD
    case Or => MOrD case Neg => NegM case Not => NotM
  }

  /** A one-line operator's code is M := its computation. */
  lemma OperatorLine(o: Operator, k: nat)
    requires !o.IsComparison()
    ensures OperatorCode(o, k) == [Assign(DestM, OperatorComp(o))]
  {
    match o {
      case Add => case Sub => case And => case Or => case Neg => case Not =>
    }
  }

  /** The computation of a one-line operator is MachineOp of M and D. */
  lemma OperatorComputes(o: Operator, s: State)
    requires !o.IsComparison()
    ensures Eval(OperatorComp(o), s) == MachineOp(o, Read(s.ram, s.a), s.d)
  {
    if o == Add || o == Sub || o == Neg {
      ArithmeticComputes(o, s);
    } else {
      BitwiseComputes(o, s);
    }
  }

  lemma ArithmeticComputes(o: Operator, s: State)
    requires o == Add || o == Sub || o == Neg
    ensures Eval(OperatorComp(o), s) == MachineOp(o, Read(s.ram, s.a), s.d)
  {
  }

  lemma BitwiseComputes(o: Operator, s: State)
    requires o == And || o == Or || o == Not
    ensures Eval(OperatorComp(o), s) == MachineOp(o, Read(s.ram, s.a), s.d)
  {
  }

  /** M := c, then SP up by one. */
  lemma WriteThenIncSP(c: Comp, env: Env, s: State)
    requires Registers(env) && 1 <= SP(s) < 0xFFFF && s.a == SP(s)
    ensures var t := Run([Assign(DestM, c)] + IncSP(), env, s);
      t.pc == s.pc + 3 && t.ram == s.ram[SP(s) := Eval(c, s)][0 := SP(s) + 1]
  {
    var s1 := Exec1(Assign(DestM, c), env, s);
    RunAppend([Assign(DestM, c)], IncSP(), env, s);
    Run1([Assign(DestM, c)], env, s);
    IncSPEffect(env, s1);
  }

  /** The operator line, then SP up by one. */
  lemma OperatorLineEffect(o: Operator, k: nat, env: Env, s: State)
    requires !o.IsComparison() && Registers(env) && 1 <= SP(s) < 0xFFFF && s.a == SP(s)
    ensures var t := Run(OperatorCode(o, k) + IncSP(), env, s);
      t.pc == s.pc + 3
      && t.ram == s.ram[SP(s) := MachineOp(o, Read(s.ram, SP(s)), s.d)][0 := SP(s) + 1]
  {
    OperatorLine(o, k);
    OperatorComputes(o, s);
    WriteThenIncSP(OperatorComp(o), env, s);
  }

  /** The one-line operators compute the VM meaning: M is the operand
      below the top (or the top, for neg and not) and D the top. */
  lemma MachineOpAgrees(o: Operator, m: Word, d: Word)
    requires !o.IsComparison()
    ensures MachineOp(o, m, d) == (if o.IsUnary() then VmUnary(o, m) else VmBinary(o, m, d))
  {
  }

  /** The code for a one-line operator, as a state change. */
  lemma OperatorEffect(o: Operator, k: nat, env: Env, s: State)
    requires !o.IsComparison() && Registers(env) && 3 <= SP(s)
    ensures var r := ResultCell(o, SP(s)); var c := ArithmeticPrefix(Some(o)) + (OperatorCode(o, k) + IncSP());
      var t := Run(c, env, s);
      var d := if o.IsUnary() then s.d else Read(s.ram, SP(s) - 1);
      t.pc == s.pc + |c| && t.ram == s.ram[0 := r][r := MachineOp(o, Read(s.ram, r), d)][0 := r + 1]
  {
    var pre := ArithmeticPrefix(Some(o));
    RunAppend(pre, OperatorCode(o, k) + IncSP(), env, s);
    PrefixEffect(o, env, s);
    var s1 := Run(pre, env, s);
    OperatorLineEffect(o, k, env, s1);
    assert Read(s1.ram, SP(s1)) == Read(s.ram, ResultCell(o, SP(s)));
  }

  /** add, sub, and, or, neg and not: one pass of straight-line code that
      leaves the VM result in the result cell and SP just above it, and
      changes no other cell. */
  lemma ArithmeticEffect(op: string, k: nat, env: Env, s: State)
    requires OperatorOf(op).Some? && !OperatorOf(op).value.IsComparison()
    requires Registers(env) && 3 <= SP(s)
    ensures var o := OperatorOf(op).value; var r := ResultCell(o, SP(s));
      var x := Read(s.ram, SP(s) - 2); var y := Read(s.ram, SP(s) - 1);
      var t := Run(ArithmeticCode(op, k), env, s);
      t.pc == s.pc + |ArithmeticCode(op, k)|
      && SP(t) == r + 1
      && Read(t.ram, r) == (if o.IsUnary() then VmUnary(o, y) else VmBinary(o, x, y))
      && SameExcept(t.ram, s.ram, {0, r})
  {
    var o := OperatorOf(op).value;
    assert ArithmeticCode(op, k) == ArithmeticPrefix(Some(o)) + (OperatorCode(o, k) + IncSP());
    OperatorEffect(o, k, env, s);
    var r := ResultCell(o, SP(s));
    MachineOpAgrees(o, Read(s.ram, r), Read(s.ram, SP(s) - 1));
  }

  /** The comparison block after a taken jump: at BOOLk, write -1. */
  lemma CompareTaken(prog: seq<Asm>, k: nat, env: Env, s: State)
    requires Registers(env) && 1 <= SP(s)
    requires At(prog, s.pc, [Label(BoolLabel(k))] + SetAToStack() + [Assign(DestM, MinusOne), Label(EndBoolLabel(k))])
    ensures var t := Exec(prog, env, s, 5); t.pc == s.pc + 5 && t.ram == s.ram[SP(s) := 0xFFFF]
  {
    var l := [Label(BoolLabel(k))];
    var w := [Assign(DestM, MinusOne), Label(EndBoolLabel(k))];
    ExecStraight(prog, l + SetAToStack() + w, env, s);
    RunAppend(l + SetAToStack(), w, env, s);
    RunAppend(l, SetAToStack(), env, s);
    Run1(l, env, s);
    SetAToStackEffect(env, Run(l, env, s));
    Run2(w, env, Run(l + SetAToStack(), env, s));
  }

  /** The comparison block after a jump not taken: write 0, jump to
      ENDBOOLk, which sits at offset 9. */
  lemma CompareNotTaken(prog: seq<Asm>, k: nat, env: Env, s: State)
    requires Registers(env) && 1 <= SP(s)
    requires At(prog, s.pc, SetAToStack() + [Assign(DestM, Zero), ASym(EndBoolLabel(k))])
    requires At(prog, s.pc + 4, [Jump(Zero, JMP)]) && At(prog, s.pc + 9, [Label(EndBoolLabel(k))])
    requires Lookup(env, EndBoolLabel(k)) == s.pc + 9
    ensures var t := Exec(prog, env, s, 6); t.pc == s.pc + 10 && t.ram == s.ram[SP(s) := 0]
  {
    var w := [Assign(DestM, Zero), ASym(EndBoolLabel(k))];
    ExecStraight(prog, SetAToStack() + w, env, s);
    RunAppend(SetAToStack(), w, env, s);
    SetAToStackEffect(env, s);
    Run2(w, env, Run(SetAToStack(), env, s));
    var s3 := Run(SetAToStack() + w, env, s);
    assert s3.pc == s.pc + 4 && s3.a == s.pc + 9 && s3.ram == s.ram[SP(s) := 0];
    ExecSplit(prog, env, s, 4, 2);
    assert prog[s.pc + 4] == Jump(Zero, JMP);
    ExecOne(prog, env, s3);
    var s4 := Exec1(prog[s.pc + 4], env, s3);
    ExecSplit(prog, env, s3, 1, 1);
    assert prog[s.pc + 9] == Label(EndBoolLabel(k));
    ExecOne(prog, env, s4);
  }

  /** The start of the comparison block: D := M - D, then jump to BOOLk
      when the condition holds of D. */
  lemma CompareJump(prog: seq<Asm>, j: Cond, k: nat, x: Word, y: Word, env: Env, s: State)
    requires At(prog, s.pc, [Assign(DestD, MMinusD), ASym(BoolLabel(k)), Jump(RegD, j)])
    requires Read(s.ram, s.a) == x && s.d == y
    ensures var b := Taken(j, Wrap(x as int - y)); var t := Exec(prog, env, s, 3);
      t.pc == (if b then Lookup(env, BoolLabel(k)) else s.pc + 3) && t.ram == s.ram
  {
    var c1 := [Assign(DestD, MMinusD), ASym(BoolLabel(k))];
    AtSlice(prog, s.pc, c1 + [Jump(RegD, j)], 0, 2);
    assert (c1 + [Jump(RegD, j)])[0..2] == c1;
    ExecStraight(prog, c1, env, s);
    Run2(c1, env, s);
    var s1 := Run(c1, env, s);
    assert prog[s.pc + 2] == Jump(RegD, j);
    ExecOne(prog, env, s1);
    ExecSplit(prog, env, s, 2, 1);
  }

  /** The comparison block, from A pointing at the result cell and D
      holding the top: when the jump is taken (8 steps) the cell becomes
      -1, otherwise (9 steps) 0; either way control leaves at the block's
      end. The environment puts BOOLk and ENDBOOLk where the labels are. */
  lemma CompareBlockEffect(prog: seq<Asm>, j: Cond, k: nat, x: Word, y: Word, env: Env, s: State)
    requires Registers(env) && At(prog, s.pc, CompareCode(j, k))
    requires Lookup(env, BoolLabel(k)) == s.pc + 8 && Lookup(env, EndBoolLabel(k)) == s.pc + 12
    requires 1 <= SP(s) && s.a == SP(s) && Read(s.ram, s.a) == x && s.d == y
    ensures var b := Taken(j, Wrap(x as int - y)); var t := Exec(prog, env, s, if b then 8 else 9);
      t.pc == s.pc + 13 && t.ram == s.ram[SP(s) := VmBool(b)]
  {
    var q := s.pc;
    var c := CompareCode(j, k);
    var b := Taken(j, Wrap(x as int - y));
    assert c[..3] == [Assign(DestD, MMinusD), ASym(BoolLabel(k)), Jump(RegD, j)];
    AtSlice(prog, q, c, 0, 3);
    CompareJump(prog, j, k, x, y, env, s);
    var s2 := Exec(prog, env, s, 3);
    ExecSplit(prog, env, s, 3, if b then 5 else 6);
    if b {
      assert c[8..13] == [Label(BoolLabel(k))] + SetAToStack() + [Assign(DestM, MinusOne), Label(EndBoolLabel(k))];
      AtSlice(prog, q, c, 8, 13);
      CompareTaken(prog, k, env, s2);
    } else {
      assert c[3..7] == SetAToStack() + [Assign(DestM, Zero), ASym(EndBoolLabel(k))];
      assert c[7..8] == [Jump(Zero, JMP)] && c[12..13] == [Label(EndBoolLabel(k))];
      AtSlice(prog, q, c, 3, 7);
      AtSlice(prog, q, c, 7, 8);
      AtSlice(prog, q, c, 12, 13);
      CompareNotTaken(prog, k, env, s2);
    }
  }

  /** increment_SP where it sits in the program. */
  lemma ExecIncSP(prog: seq<Asm>, env: Env, s: State)
    requires Registers(env) && SP(s) < 0xFFFF && At(prog, s.pc, IncSP())
    ensures Exec(prog, env, s, 2) == s.(pc := s.pc + 2, a := 0, ram := s.ram[0 := SP(s) + 1])
  {
    ExecStraight(prog, IncSP(), env, s);
    IncSPEffect(env, s);
  }

  /** The prefix of a binary operator (pop the top into D, move SP down
      to the result cell, point A at it) where it sits in the program. */
  lemma ExecBinaryPrefix(prog: seq<Asm>, x: Word, y: Word, env: Env, s: State)
    requires Registers(env) && 3 <= SP(s) && At(prog, s.pc, PopD() + DecSP() + SetAToStack())
    requires Read(s.ram, SP(s) - 2) == x && Read(s.ram, SP(s) - 1) == y
    ensures var t := Exec(prog, env, s, 8);
      t.pc == s.pc + 8 && t.a == SP(t) && t.d == y && t.ram == s.ram[0 := SP(s) - 2]
      && SP(t) == SP(s) - 2 && Read(t.ram, t.a) == x
  {
    var c := PopD() + DecSP() + SetAToStack();
    ExecStraight(prog, c, env, s);
    BinaryPrefixRun(env, s);
  }

  /** The prefix of a binary operator, run on its own. */
  lemma BinaryPrefixRun(env: Env, s: State)
    requires Registers(env) && 3 <= SP(s)
    ensures var t := Run(PopD() + DecSP() + SetAToStack(), env, s);
      t.pc == s.pc + 8 && t.a == SP(s) - 2 && t.d == Read(s.ram, SP(s) - 1) && t.ram == s.ram[0 := SP(s) - 2]
  {
    assert ArithmeticPrefix(Some(Add)) == PopD() + DecSP() + SetAToStack();
    PrefixEffect(Add, env, s);
  }

  /** The comparison block followed by increment_SP, from A pointing at
      the result cell and D holding the top. */
  lemma CompareIncrement(prog: seq<Asm>, j: Cond, k: nat, x: Word, y: Word, env: Env, s: State)
    requires Registers(env) && At(prog, s.pc, CompareCode(j, k)) && At(prog, s.pc + 13, IncSP())
    requires Lookup(env, BoolLabel(k)) == s.pc + 8 && Lookup(env, EndBoolLabel(k)) == s.pc + 12
    requires 1 <= SP(s) < 0xFFFF && s.a == SP(s) && Read(s.ram, s.a) == x && s.d == y
    ensures var b := Taken(j, Wrap(x as int - y)); var t := Exec(prog, env, s, if b then 10 else 11);
      t.pc == s.pc + 15 && t.ram == s.ram[SP(s) := VmBool(b)][0 := SP(s) + 1]
  {
    var m := if Taken(j, Wrap(x as int - y)) then 8 else 9;
    CompareBlockEffect(prog, j, k, x, y, env, s);
    var s2 := Exec(prog, env, s, m);
    ExecIncSP(prog, env, s2);
    ExecSplit(prog, env, s, m, 2);
  }

  /** The stack pointer moved down to the result cell, the cell written
      and the stack pointer moved just above it: only the result cell and
      the stack pointer change. */
  lemma CompareRam(s: State, s1: State, ram: Ram, v: Word)
    requires 3 <= SP(s) && s1.ram == s.ram[0 := SP(s) - 2]
    requires ram == s1.ram[SP(s1) := v][0 := SP(s1) + 1]
    ensures ram == s.ram[SP(s) - 2 := v][0 := SP(s) - 1]
  {
  }

  /** The code for a comparison with condition j on the operands x
      (below) and y (on top), as a state change: 18 steps when the jump is
      taken, 19 otherwise. */
  lemma ComparisonOpEffect(prog: seq<Asm>, j: Cond, k: nat, x: Word, y: Word, env: Env, s: State)
    requires Registers(env) && 3 <= SP(s)
    requires Read(s.ram, SP(s) - 2) == x && Read(s.ram, SP(s) - 1) == y
    requires At(prog, s.pc, PopD() + DecSP() + SetAToStack()) && At(prog, s.pc + 8, CompareCode(j, k))
    requires At(prog, s.pc + 21, IncSP())
    requires Lookup(env, BoolLabel(k)) == s.pc + 16 && Lookup(env, EndBoolLabel(k)) == s.pc + 20
    ensures var b := Taken(j, Wrap(x as int - y)); var t := Exec(prog, env, s, if b then 18 else 19);
      t.pc == s.pc + 23 && t.ram == s.ram[SP(s) - 2 := VmBool(b)][0 := SP(s) - 1]
  {
    var b := Taken(j, Wrap(x as int - y));
    ExecBinaryPrefix(prog, x, y, env, s);
    var s1 := Exec(prog, env, s, 8);
    CompareIncrement(prog, j, k, x, y, env, s1);
    var n := if b then 10 else 11;
    var t := Exec(prog, env, s1, n);
    CompareRam(s, s1, t.ram, VmBool(b));
    ExecSplit(prog, env, s, 8, n);
  }

  /** The code arithmetic_command writes for eq, gt and lt, in its three
      parts: the prefix, the comparison block and increment_SP. */
  lemma ComparisonLayout(op: string, k: nat)
    requires OperatorOf(op).Some? && OperatorOf(op).value.IsComparison()
    ensures var c := CompareCode(CompareCond(OperatorOf(op).value), k);
      ArithmeticCode(op, k) == PopD() + DecSP() + SetAToStack() + (c + IncSP())
      && |ArithmeticCode(op, k)| == 23
  {
  }

  /** One cell r written with v and the stack pointer set just above it. */
  lemma WrittenCell(ram0: Ram, ram1: Ram, r: Word, v: Word)
    requires 0 < r < 0xFFFF && ram1 == ram0[r := v][0 := r + 1]
    ensures Read(ram1, 0) == r + 1 && Read(ram1, r) == v && SameExcept(ram1, ram0, {0, r})
  {
  }

  /** eq, gt and lt: the VM truth value of the comparison lands in the
      result cell and SP just above it, and no other cell changes. The
      block tests the 16-bit difference, so gt and lt give the VM meaning
      only when the difference does not overflow; eq always does. */
  lemma ComparisonEffect(prog: seq<Asm>, op: string, k: nat, env: Env, s: State)
    requires OperatorOf(op).Some? && OperatorOf(op).value.IsComparison()
    requires Registers(env) && 3 <= SP(s) && At(prog, s.pc, ArithmeticCode(op, k))
    requires Lookup(env, BoolLabel(k)) == s.pc + 16 && Lookup(env, EndBoolLabel(k)) == s.pc + 20
    ensures var o := OperatorOf(op).value;
      var x := Read(s.ram, SP(s) - 2); var y := Read(s.ram, SP(s) - 1);
      var t := Exec(prog, env, s, if Taken(CompareCond(o), Wrap(x as int - y)) then 18 else 19);
      t.pc == s.pc + |ArithmeticCode(op, k)| && SP(t) == SP(s) - 1
      && Read(t.ram, SP(s) - 2) == MachineCompare(o, x, y)
      && ((o == Eq || NoOverflow(x, y)) ==> Read(t.ram, SP(s) - 2) == VmCompare(o, x, y))
      && SameExcept(t.ram, s.ram, {0, SP(s) - 2})
  {
    ComparisonLayout(op, k);
    ComparisonRun(prog, OperatorOf(op).value, k, env, s);
  }

  /** ComparisonEffect, for the code laid out in its three parts. */
  lemma ComparisonRun(prog: seq<Asm>, o: Operator, k: nat, env: Env, s: State)
    requires o.IsComparison() && Registers(env) && 3 <= SP(s)
    requires At(prog, s.pc, PopD() + DecSP() + SetAToStack() + (CompareCode(CompareCond(o), k) + IncSP()))
    requires Lookup(env, BoolLabel(k)) == s.pc + 16 && Lookup(env, EndBoolLabel(k)) == s.pc + 20
    ensures var x := Read(s.ram, SP(s) - 2); var y := Read(s.ram, SP(s) - 1);
      var t := Exec(prog, env, s, if Taken(CompareCond(o), Wrap(x as int - y)) then 18 else 19);
      t.pc == s.pc + 23 && SP(t) == SP(s) - 1
      && Read(t.ram, SP(s) - 2) == MachineCompare(o, x, y)
      && ((o == Eq || NoOverflow(x, y)) ==> Read(t.ram, SP(s) - 2) == VmCompare(o, x, y))
      && SameExcept(t.ram, s.ram, {0, SP(s) - 2})
  {
    var j := CompareCond(o);
    var c := CompareCode(j, k);
    AtSplit(prog, s.pc, PopD() + DecSP() + SetAToStack(), c + IncSP());
    AtSplit(prog, s.pc + 8, c, IncSP());
    var x := Read(s.ram, SP(s) - 2);
    var y := Read(s.ram, SP(s) - 1);
    ComparisonOpEffect(prog, j, k, x, y, env, s);
    var b := Taken(j, Wrap(x as int - y));
    WrittenCell(s.ram, Exec(prog, env, s, if b then 18 else 19).ram, SP(s) - 2, VmBool(b));
    if o == Eq || NoOverflow(x, y) {
      CompareAgrees(o, x, y);
    }
  }

  // --------------------------------------------------------- program flow

  /** label: a no-op where it stands. */
  lemma LabelEffect(prog: seq<Asm>, file: Option<string>, target: Option<string>, env: Env, s: State)
    requires At(prog, s.pc, LabelCode(file, target))
    ensures Exec(prog, env, s, 1) == s.(pc := s.pc + 1)
  {
    assert prog[s.pc] == Label(NamespacedLabel(file, target));
    ExecOne(prog, env, s);
  }

  /** goto: control moves to the namespaced label; no cell changes. */
  lemma GotoEffect(prog: seq<Asm>, file: Option<string>, target: Option<string>, env: Env, s: State)
    requires At(prog, s.pc, GotoCode(file, target))
    ensures var t := Exec(prog, env, s, 2);
      t.pc == Lookup(env, NamespacedLabel(file, target)) && t.ram == s.ram
  {
    var c := GotoCode(file, target);
    assert prog[s.pc] == c[0] && prog[s.pc + 1] == c[1];
    ExecOne(prog, env, s);
    var s1 := Exec1(c[0], env, s);
    ExecOne(prog, env, s1);
    ExecSplit(prog, env, s, 1, 1);
  }

  /** if-goto: the top is popped, and control moves to the namespaced
      label exactly when it was not 0 (D;JNE); no other cell changes. */
  lemma IfEffect(prog: seq<Asm>, file: Option<string>, target: Option<string>, env: Env, s: State)
    requires Registers(env) && 2 <= SP(s) && At(prog, s.pc, IfCode(file, target))
    ensures var t := Exec(prog, env, s, 6);
      t.pc == (if Read(s.ram, SP(s) - 1) != 0 then Lookup(env, NamespacedLabel(file, target)) else s.pc + 6)
      && t.ram == s.ram[0 := SP(s) - 1]
  {
    var l := NamespacedLabel(file, target);
    var c := PopD() + [ASym(l)];
    assert IfCode(file, target) == c + [Jump(RegD, JNE)];
    AtSplit(prog, s.pc, c, [Jump(RegD, JNE)]);
    ExecStraight(prog, c, env, s);
    PopThenLoad(l, env, s);
    var s1 := Run(c, env, s);
    assert |c| == 5 && prog[s.pc + 5..s.pc + 6][0] == Jump(RegD, JNE);
    assert prog[s1.pc] == Jump(RegD, JNE);
    ExecOne(prog, env, s1);
    var t := Exec1(Jump(RegD, JNE), env, s1);
    assert t.pc == if s1.d != 0 then s1.a else s1.pc + 1;
    assert Exec(prog, env, s, 5) == s1;
    ExecSplit(prog, env, s, 5, 1);
  }

  /** Pop into D, then load a symbol into A. */
  lemma PopThenLoad(l: string, env: Env, s: State)
    requires Registers(env) && 2 <= SP(s)
    ensures var t := Run(PopD() + [ASym(l)], env, s);
      t.pc == s.pc + 5 && t.a == Lookup(env, l) && t.d == Read(s.ram, SP(s) - 1)
      && t.ram == s.ram[0 := SP(s) - 1]
  {
    RunAppend(PopD(), [ASym(l)], env, s);
    PopDEffect(env, s);
    Run1([ASym(l)], env, Run(PopD(), env, s));
  }

  // ------------------------------------------------------------ functions

  /** A memory after values were pushed from the stack pointer sp on: the
      values sit at sp, sp + 1, ..., the stack pointer is just above them,
      and no other cell changed. */
  ghost predicate Pushed(ram0: Ram, ram1: Ram, sp: int, vals: seq<Word>) {
    Read(ram1, 0) == sp + |vals|
    && (forall i :: 0 <= i < |vals| ==> 0 <= sp + i < WordCount && Read(ram1, sp + i) == vals[i])
    && (forall j: Word :: j != 0 && !(sp <= j < sp + |vals|) ==> Read(ram1, j) == Read(ram0, j))
  }

  /** k zeros. */
  function Zeros(k: nat): (r: seq<Word>)
    ensures |r| == k && forall i :: 0 <= i < k ==> r[i] == 0
  {
    if k == 0 then [] else Zeros(k - 1) + [0]
  }

  /** One more value pushed. */
  lemma PushedSnoc(ram0: Ram, ram1: Ram, ram2: Ram, sp: int, vals: seq<Word>, v: Word)
    requires Pushed(ram0, ram1, sp, vals) && 0 < sp && sp + |vals| < 0xFFFF
    requires ram2 == ram1[sp + |vals| := v][0 := sp + |vals| + 1]
    ensures Pushed(ram0, ram2, sp, vals + [v])
  {
    var w := vals + [v];
    forall i | 0 <= i < |w|
      ensures 0 <= sp + i < WordCount && Read(ram2, sp + i) == w[i]
    {
      if i < |vals| {
        assert 0 <= sp + i < WordCount && Read(ram1, sp + i) == vals[i];
        assert Read(ram2, sp + i) == Read(ram1, sp + i);
      }
    }
    forall j: Word | j != 0 && !(sp <= j < sp + |w|)
      ensures Read(ram2, j) == Read(ram0, j)
    {
      assert Read(ram2, j) == Read(ram1, j);
    }
  }

  /** k times D := 0 and push D: k zeros on the stack. */
  lemma {:induction false} PushZerosEffect(k: nat, env: Env, s: State)
    requires Registers(env) && 0 < SP(s) && SP(s) + k < 0xFFFF
    ensures var t := Run(PushZeros(k), env, s);
      t.pc == s.pc + 6 * k && Pushed(s.ram, t.ram, SP(s), Zeros(k))
  {
    if k > 0 {
      var step := [Assign(DestD, Zero)] + PushD();
      AppendAssoc(PushZeros(k - 1), [Assign(DestD, Zero)], PushD());
      RunAppend(PushZeros(k - 1), step, env, s);
      PushZerosEffect(k - 1, env, s);
      var s1 := Run(PushZeros(k - 1), env, s);
      RunAppend([Assign(DestD, Zero)], PushD(), env, s1);
      Run1([Assign(DestD, Zero)], env, s1);
      var s2 := Exec1(Assign(DestD, Zero), env, s1);
      PushDEffect(env, s2);
      PushedSnoc(s.ram, s1.ram, Run(step, env, s1).ram, SP(s), Zeros(k - 1), 0);
    }
  }

  /** function f k: past the entry label, k local variables initialised to
      0 on the stack, and no other cell changed. */
  lemma FunctionEffect(f: string, k: nat, env: Env, s: State)
    requires Registers(env) && 0 < SP(s) && SP(s) + k < 0xFFFF
    ensures var t := Run(FunctionCode(f, k), env, s);
      t.pc == s.pc + |FunctionCode(f, k)| && Pushed(s.ram, t.ram, SP(s), Zeros(k))
  {
    RunAppend([Label(f)], PushZeros(k), env, s);
    Run1([Label(f)], env, s);
    PushZerosEffect(k, env, s.(pc := s.pc + 1));
    PushZerosLength(k);
  }

  lemma {:induction false} PushZerosLength(k: nat)
    ensures |PushZeros(k)| == 6 * k
  {
    if k > 0 {
      PushZerosLength(k - 1);
    }
  }
}
