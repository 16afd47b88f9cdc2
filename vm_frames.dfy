/** What the code for call and return does on the Hack machine: call
    saves the return address and the caller's LCL, ARG, THIS and THAT on
    the stack and repositions LCL and ARG for the callee; return puts the
    result where the caller's arguments began and restores the caller's
    frame. */
module VmFrames {
  import opened Wrappers
  import opened Text
  import opened Hack
  import opened HackMachine
  import opened VmWriter
  import opened VmSemantics

  lemma WrapSub(x: int, n: int)
    ensures Wrap(x - Wrap(n)) == Wrap(x - n)
  {
    var q := n / 0x10000;
    assert n == q * 0x10000 + Wrap(n);
    assert x - n == (x - Wrap(n)) - q * 0x10000;
  }

  /** A word is its own reduction. */
  lemma WrapWord(x: int)
    requires 0 <= x < 0x10000
    ensures Wrap(x) == x
  {
  }

  /** Code without jumps, in two halves. */
  lemma StraightAppend(a: seq<Asm>, b: seq<Asm>)
    requires Straight(a) && Straight(b)
    ensures Straight(a + b)
  {
    forall k | 0 <= k < |a + b|
      ensures !(a + b)[k].Jump?
    {
      if k >= |a| {
        assert (a + b)[k] == b[k - |a|];
      }
    }
  }

  // ------------------------------------------------------------------ call

  /** push the value of a register. */
  lemma PushRegisterEffect(name: string, env: Env, s: State)
    requires Registers(env) && 0 < SP(s) < 0xFFFF
    ensures var v := Read(s.ram, Lookup(env, name)); var t := Run(PushRegister(name), env, s);
      t.pc == s.pc + 7 && t.ram == s.ram[SP(s) := v][0 := SP(s) + 1]
  {
    var load := [ASym(name), Assign(DestD, RegM)];
    RunAppend(load, PushD(), env, s);
    Run2(load, env, s);
    PushDEffect(env, Run(load, env, s));
  }

  /** The values of the given registers in a memory. */
  ghost function RegisterValues(ram: Ram, env: Env, names: seq<string>): (r: seq<Word>)
    ensures |r| == |names|
    ensures forall i :: 0 <= i < |names| ==> r[i] == Read(ram, Lookup(env, names[i]))
  {
    if names == [] then [] else RegisterValues(ram, env, names[..|names| - 1]) + [Read(ram, Lookup(env, names[|names| - 1]))]
  }

  /** Registers below the stack, other than SP itself. */
  ghost predicate LowRegisters(env: Env, names: seq<string>) {
    forall i :: 0 <= i < |names| ==> 0 < Lookup(env, names[i]) < 16
  }

  /** Pushing the values of registers below the stack, one after the
      other, stacks them in order. */
  lemma {:induction false} PushRegistersEffect(names: seq<string>, vals: seq<Word>, ram0: Ram, sp: int, env: Env, s: State)
    requires Registers(env) && LowRegisters(env, names)
    requires 16 <= sp && sp + |vals| + |names| < 0xFFFF && Pushed(ram0, s.ram, sp, vals)
    ensures var t := Run(PushRegisters(names), env, s);
      t.pc == s.pc + 7 * |names| && Pushed(ram0, t.ram, sp, vals + RegisterValues(ram0, env, names))
    decreases |names|
  {
    if names != [] {
      var front := names[..|names| - 1];
      var last := names[|names| - 1];
      assert LowRegisters(env, front) by {
        forall i | 0 <= i < |front| ensures 0 < Lookup(env, front[i]) < 16 {
          assert front[i] == names[i];
        }
      }
      RunAppend(PushRegisters(front), PushRegister(last), env, s);
      PushRegistersEffect(front, vals, ram0, sp, env, s);
      var s1 := Run(PushRegisters(front), env, s);
      var before := vals + RegisterValues(ram0, env, front);
      PushRegisterEffect(last, env, s1);
      var r := Lookup(env, last);
      assert 0 < r < 16;
      assert Read(s1.ram, r) == Read(ram0, r);
      PushedSnoc(ram0, s1.ram, Run(PushRegister(last), env, s1).ram, sp, before, Read(ram0, r));
      assert before + [Read(ram0, r)] == vals + RegisterValues(ram0, env, names);
    }
  }

  /** Nothing pushed yet. */
  lemma PushedNothing(ram: Ram)
    ensures Pushed(ram, ram, Read(ram, 0), [])
  {
  }

  /** The start of a call: the return address is pushed. */
  lemma CallHeadEffect(f: string, c: nat, env: Env, s: State)
    requires Registers(env) && 0 < SP(s) < 0xFFFF
    ensures var t := Run(CallHead(f, c), env, s);
      t.pc == s.pc + 7 && Pushed(s.ram, t.ram, SP(s), [Lookup(env, RetLabel(f, c))])
  {
    var load := [ASym(RetLabel(f, c)), Assign(DestD, RegA)];
    RunAppend(load, PushD(), env, s);
    Run2(load, env, s);
    var s1 := Run(load, env, s);
    PushDEffect(env, s1);
    PushedNothing(s.ram);
    PushedSnoc(s.ram, s.ram, Run(PushD(), env, s1).ram, SP(s), [], s1.d);
  }

  /** LCL := SP; ARG := SP - (n + 5): the part of the call tail before the jump. */
  function SetFrame(n: nat): seq<Asm> {
    [ASym("SP"), Assign(DestD, RegM), ASym("LCL"), Assign(DestM, RegD),
     AConst(n + 5), Assign(DestD, DMinusA), ASym("ARG"), Assign(DestM, RegD)]
  }

  lemma SetFrameEffect(n: nat, env: Env, s: State)
    requires Registers(env)
    ensures var t := Run(SetFrame(n), env, s);
      t.pc == s.pc + 8 && t.ram == s.ram[1 := SP(s)][2 := Wrap(SP(s) - (n + 5))]
  {
    var c1 := [ASym("SP"), Assign(DestD, RegM), ASym("LCL"), Assign(DestM, RegD)];
    var c2 := [AConst(n + 5), Assign(DestD, DMinusA), ASym("ARG"), Assign(DestM, RegD)];
    assert SetFrame(n) == c1 + c2;
    RunAppend(c1, c2, env, s);
    Run4(c1, env, s);
    var s1 := Run(c1, env, s);
    assert s1 == s.(pc := s.pc + 4, a := 1, d := SP(s), ram := s.ram[1 := SP(s)]);
    assert Read(s1.ram, 0) == SP(s);
    Run4(c2, env, s1);
    WrapSub(SP(s), n + 5);
  }

  /** The layout of the call code: the straight part, the jump to f, and
      the return label. */
  lemma CallLayout(f: string, n: nat, c: nat)
    ensures var body := CallHead(f, c) + PushRegisters(Saved()) + SetFrame(n) + [ASym(f)];
      CallCode(f, n, c) == body + [Jump(Zero, JMP)] + [Label(RetLabel(f, c))]
      && Straight(body) && |body| == 44
  {
    var h := CallHead(f, c);
    var p := PushRegisters(Saved());
    assert CallTail(f, n, c) == SetFrame(n) + [ASym(f)] + [Jump(Zero, JMP)] + [Label(RetLabel(f, c))];
    PushRegistersStraight(Saved());
    StraightAppend(h, p);
    StraightAppend(h + p, SetFrame(n));
    StraightAppend(h + p + SetFrame(n), [ASym(f)]);
  }

  lemma {:induction false} PushRegistersStraight(names: seq<string>)
    ensures Straight(PushRegisters(names)) && |PushRegisters(names)| == 7 * |names|
    decreases |names|
  {
    if names != [] {
      PushRegistersStraight(names[..|names| - 1]);
      StraightAppend(PushRegisters(names[..|names| - 1]), PushRegister(names[|names| - 1]));
    }
  }

  lemma SavedLow(env: Env)
    requires Registers(env)
    ensures LowRegisters(env, Saved())
  {
  }

  /** The frame of the c-th call of f: the return address, then the
      caller's LCL, ARG, THIS and THAT. */
  ghost function CallFrame(f: string, c: nat, env: Env, ram: Ram): (r: seq<Word>)
    ensures |r| == 5
  {
    [Lookup(env, RetLabel(f, c))] + RegisterValues(ram, env, Saved())
  }

  /** The first part of a call: the frame is pushed. */
  lemma CallPushRun(f: string, c: nat, env: Env, s: State)
    requires Registers(env) && 16 <= SP(s) && SP(s) + 5 < 0xFFFF
    ensures var t := Run(CallHead(f, c) + PushRegisters(Saved()), env, s);
      t.pc == s.pc + 35 && Pushed(s.ram, t.ram, SP(s), CallFrame(f, c, env, s.ram))
  {
    var h := CallHead(f, c);
    RunAppend(h, PushRegisters(Saved()), env, s);
    CallHeadEffect(f, c, env, s);
    SavedLow(env);
    PushRegistersEffect(Saved(), [Lookup(env, RetLabel(f, c))], s.ram, SP(s), env, Run(h, env, s));
  }

  /** The straight part of a call: the frame is stacked and LCL and ARG
      repositioned, and A holds f. */
  lemma CallBodyRun(f: string, n: nat, c: nat, env: Env, s: State)
    requires Registers(env) && 16 <= SP(s) && SP(s) + 5 < 0xFFFF
    ensures var body := CallHead(f, c) + PushRegisters(Saved()) + SetFrame(n) + [ASym(f)];
      var t := Run(body, env, s); var sp := SP(s);
      var frame := CallFrame(f, c, env, s.ram);
      t.a == Lookup(env, f)
      && Read(t.ram, 0) == sp + 5 && Read(t.ram, 1) == sp + 5 && Read(t.ram, 2) == Wrap(sp - n)
      && (forall i :: 0 <= i < 5 ==> Read(t.ram, sp + i) == frame[i])
      && (forall j: Word :: j > 2 && !(sp <= j < sp + 5) ==> Read(t.ram, j) == Read(s.ram, j))
  {
    var hp := CallHead(f, c) + PushRegisters(Saved());
    RunAppend(hp + SetFrame(n), [ASym(f)], env, s);
    RunAppend(hp, SetFrame(n), env, s);
    CallPushRun(f, c, env, s);
    var s2 := Run(hp, env, s);
    SetFrameEffect(n, env, s2);
    var s3 := Run(SetFrame(n), env, s2);
    Run1([ASym(f)], env, s3);
    assert Wrap(SP(s2) - (n + 5)) == Wrap(SP(s) - n);
    FramedCells(s.ram, s2.ram, s3.ram, SP(s), CallFrame(f, c, env, s.ram), n);
  }

  /** call f n, the c-th call, on a stack at least 16 up: after everything
      but the return label, control is at f; the return address and the
      caller's LCL, ARG, THIS and THAT sit at SP..SP+4, SP and LCL point
      just above them, ARG points at the first of the n arguments below,
      and no other cell changed. */
  lemma CallEffect(prog: seq<Asm>, f: string, n: nat, c: nat, env: Env, s: State)
    requires Registers(env) && 16 <= SP(s) && SP(s) + 5 < 0xFFFF
    requires At(prog, s.pc, CallCode(f, n, c))
    ensures var t := Exec(prog, env, s, |CallCode(f, n, c)| - 1); var sp := SP(s);
      var frame := CallFrame(f, c, env, s.ram);
      t.pc == Lookup(env, f)
      && Read(t.ram, 0) == sp + 5 && Read(t.ram, 1) == sp + 5 && Read(t.ram, 2) == Wrap(sp - n)
      && (forall i :: 0 <= i < 5 ==> Read(t.ram, sp + i) == frame[i])
      && (forall j: Word :: j > 2 && !(sp <= j < sp + 5) ==> Read(t.ram, j) == Read(s.ram, j))
  {
    var body := CallHead(f, c) + PushRegisters(Saved()) + SetFrame(n) + [ASym(f)];
    CallLayout(f, n, c);
    AtSplit(prog, s.pc, body + [Jump(Zero, JMP)], [Label(RetLabel(f, c))]);
    AtSplit(prog, s.pc, body, [Jump(Zero, JMP)]);
    ExecStraight(prog, body, env, s);
    CallBodyRun(f, n, c, env, s);
    RunPc(body, env, s);
    var s1 := Run(body, env, s);
    assert prog[s.pc + 44..s.pc + 45][0] == Jump(Zero, JMP);
    ExecOne(prog, env, s1);
    ExecSplit(prog, env, s, 44, 1);
  }

  /** The cells of a memory after the frame was pushed and LCL and ARG set. */
  lemma FramedCells(ram0: Ram, ram: Ram, ram1: Ram, sp: Word, frame: seq<Word>, n: nat)
    requires |frame| == 5 && 16 <= sp && sp + 5 < 0xFFFF && Pushed(ram0, ram, sp, frame)
    requires ram1 == ram[1 := sp + 5][2 := Wrap(sp - n)]
    ensures Read(ram1, 0) == sp + 5 && Read(ram1, 1) == sp + 5 && Read(ram1, 2) == Wrap(sp - n)
    ensures forall i :: 0 <= i < 5 ==> Read(ram1, sp + i) == frame[i]
    ensures forall j: Word :: j > 2 && !(sp <= j < sp + 5) ==> Read(ram1, j) == Read(ram0, j)
  {
    forall i | 0 <= i < 5 ensures Read(ram1, sp + i) == frame[i] {
      assert Read(ram, sp + i) == frame[i];
    }
  }

  // ---------------------------------------------------------------- return

  /** FRAME := LCL, kept in R13. */
  lemma ReturnHeadEffect(env: Env, s: State)
    requires Registers(env)
    ensures var t := Run(ReturnHead(), env, s);
      t.pc == s.pc + 4 && t.ram == s.ram[13 := Read(s.ram, 1)]
  {
    Run4(ReturnHead(), env, s);
  }

  /** dest := *(R13 - offset), R13 holding addr + offset and dest
      standing for cell r. */
  lemma FrameReadEffect(dest: string, offset: nat, r: Word, addr: Word, env: Env, s: State)
    requires Registers(env) && Lookup(env, dest) == r && Read(s.ram, 13) == addr + offset
    ensures var t := Run(FrameRead(dest, offset), env, s);
      t.pc == s.pc + 8 && t.ram == s.ram[r := Read(s.ram, addr)]
  {
    var c1 := [ASym("R13"), Assign(DestD, RegM), AConst(offset), Assign(DestD, DMinusA)];
    var c2 := [Assign(DestA, RegD), Assign(DestD, RegM), ASym(dest), Assign(DestM, RegD)];
    assert FrameRead(dest, offset) == c1 + c2;
    RunAppend(c1, c2, env, s);
    Run4(c1, env, s);
    var s1 := Run(c1, env, s);
    WrapWord(offset);
    WrapWord(addr);
    assert s1 == s.(pc := s.pc + 4, a := offset, d := addr);
    Run4(c2, env, s1);
  }

  /** *ARG := D; SP := ARG + 1, for ARG above the registers. */
  lemma ReturnValueEffect(env: Env, s: State)
    requires Registers(env) && 16 <= Read(s.ram, 2) < 0xFFFF
    ensures var arg := Read(s.ram, 2); var t := Run(ReturnValue(), env, s);
      t.pc == s.pc + 7 && t.ram == s.ram[arg := s.d][0 := arg + 1]
  {
    var c1 := [ASym("ARG"), Assign(DestA, RegM), Assign(DestM, RegD)];
    var c2 := [ASym("ARG"), Assign(DestD, RegM), ASym("SP"), Assign(DestM, DPlusOne)];
    assert ReturnValue() == c1 + c2;
    var arg := Read(s.ram, 2);
    RunAppend(c1, c2, env, s);
    Run3(c1, env, s);
    var s1 := Run(c1, env, s);
    assert s1 == s.(pc := s.pc + 3, a := arg, ram := s.ram[arg := s.d]);
    assert Read(s1.ram, 2) == arg;
    Run4(c2, env, s1);
    assert Wrap(arg + 1) == arg + 1;
  }

  /** A proper frame: LCL (the frame) lies above the five saved cells,
      which lie above the registers; ARG lies at or below the saved return
      address; the stack top lies above the registers. */
  ghost predicate ProperFrame(s: State) {
    var frame := Read(s.ram, 1);
    var arg := Read(s.ram, 2);
    21 <= frame && 16 <= arg && arg + 5 <= frame && 17 <= SP(s)
  }

  /** The first part of return, up to SP := ARG + 1. */
  function ReturnFirst(): seq<Asm> {
    ReturnHead() + FrameRead("R14", 5) + PopD() + ReturnValue()
  }

  /** FRAME := LCL in R13, then RET := *(FRAME - 5) in R14. */
  lemma ReturnSaveRun(env: Env, s: State)
    requires Registers(env) && ProperFrame(s)
    ensures var frame := Read(s.ram, 1); var t := Run(ReturnHead() + FrameRead("R14", 5), env, s);
      t.pc == s.pc + 12 && t.ram == s.ram[13 := frame][14 := Read(s.ram, frame - 5)]
  {
    var frame := Read(s.ram, 1);
    RunAppend(ReturnHead(), FrameRead("R14", 5), env, s);
    ReturnHeadEffect(env, s);
    var s1 := Run(ReturnHead(), env, s);
    assert Read(s1.ram, 13) == frame && Read(s1.ram, frame - 5) == Read(s.ram, frame - 5);
    FrameReadEffect("R14", 5, 14, frame - 5, env, s1);
  }

  lemma ReturnFirstRun(env: Env, s: State)
    requires Registers(env) && ProperFrame(s)
    ensures var frame := Read(s.ram, 1); var arg := Read(s.ram, 2);
      var t := Run(ReturnFirst(), env, s);
      t.pc == s.pc + 23
      && t.ram == s.ram[13 := frame][14 := Read(s.ram, frame - 5)][0 := SP(s) - 1]
                       [arg := Read(s.ram, SP(s) - 1)][0 := arg + 1]
  {
    var hr := ReturnHead() + FrameRead("R14", 5);
    RunAppend(hr + PopD(), ReturnValue(), env, s);
    RunAppend(hr, PopD(), env, s);
    var frame := Read(s.ram, 1);
    var arg := Read(s.ram, 2);
    var top := Read(s.ram, SP(s) - 1);
    ReturnSaveRun(env, s);
    var s2 := Run(hr, env, s);
    assert SP(s2) == SP(s) && Read(s2.ram, SP(s) - 1) == top;
    PopDEffect(env, s2);
    var s3 := Run(PopD(), env, s2);
    assert Read(s3.ram, 2) == arg && s3.d == top;
    ReturnValueEffect(env, s3);
  }

  /** Two frame reads in a row, into registers below R13 from cells of a
      frame at least 21 up. */
  lemma FrameReadTwice(d1: string, o1: nat, r1: Word, d2: string, o2: nat, r2: Word, env: Env, s: State)
    requires Registers(env) && Lookup(env, d1) == r1 && Lookup(env, d2) == r2
    requires 0 < r1 < 13 && 0 < r2 < 13 && o1 <= 5 && o2 <= 5 && 21 <= Read(s.ram, 13)
    ensures var q := Read(s.ram, 13); var t := Run(FrameRead(d1, o1) + FrameRead(d2, o2), env, s);
      t.pc == s.pc + 16 && t.ram == s.ram[r1 := Read(s.ram, q - o1)][r2 := Read(s.ram, q - o2)]
  {
    var q := Read(s.ram, 13);
    RunAppend(FrameRead(d1, o1), FrameRead(d2, o2), env, s);
    FrameReadEffect(d1, o1, r1, q - o1, env, s);
    var s1 := Run(FrameRead(d1, o1), env, s);
    assert Read(s1.ram, 13) == q && Read(s1.ram, q - o2) == Read(s.ram, q - o2);
    FrameReadEffect(d2, o2, r2, q - o2, env, s1);
  }

  /** The restores, from a memory whose R13 holds a frame at least 21 up:
      THAT, THIS, ARG and LCL get *(FRAME - 1) to *(FRAME - 4). */
  lemma RestoresRun(env: Env, s: State)
    requires Registers(env) && 21 <= Read(s.ram, 13)
    ensures var q := Read(s.ram, 13); var t := Run(Restores(Restored()), env, s);
      t.pc == s.pc + 32
      && t.ram == s.ram[4 := Read(s.ram, q - 1)][3 := Read(s.ram, q - 2)]
                       [2 := Read(s.ram, q - 3)][1 := Read(s.ram, q - 4)]
  {
    var q := Read(s.ram, 13);
    var h1 := FrameRead("THAT", 1) + FrameRead("THIS", 2);
    var h2 := FrameRead("ARG", 3) + FrameRead("LCL", 4);
    RestoresUnfold();
    assert Restores(Restored()) == h1 + h2;
    RunAppend(h1, h2, env, s);
    FrameReadTwice("THAT", 1, 4, "THIS", 2, 3, env, s);
    var s1 := Run(h1, env, s);
    assert Read(s1.ram, 13) == q && Read(s1.ram, q - 3) == Read(s.ram, q - 3)
      && Read(s1.ram, q - 4) == Read(s.ram, q - 4);
    FrameReadTwice("ARG", 3, 2, "LCL", 4, 1, env, s1);
  }

  /** The restores, written out. */
  lemma RestoresUnfold()
    ensures Restores(Restored())
         == FrameRead("THAT", 1) + FrameRead("THIS", 2) + FrameRead("ARG", 3) + FrameRead("LCL", 4)
  {
    var n := Restored();
    assert ["THAT"][..0] == [] && [] + FrameRead("THAT", 1) == FrameRead("THAT", 1);
    assert Restores(["THAT"]) == FrameRead("THAT", 1);
    assert ["THAT", "THIS"][..1] == ["THAT"];
    assert Restores(["THAT", "THIS"]) == FrameRead("THAT", 1) + FrameRead("THIS", 2);
    assert ["THAT", "THIS", "ARG"][..2] == ["THAT", "THIS"];
    assert Restores(["THAT", "THIS", "ARG"]) == FrameRead("THAT", 1) + FrameRead("THIS", 2) + FrameRead("ARG", 3);
    assert n[..3] == ["THAT", "THIS", "ARG"];
  }

  function ReturnLoad(): seq<Asm> { [ASym("R14"), Assign(DestA, RegM)] }

  /** The layout of the return code: the straight part and the jump. */
  lemma ReturnLayout()
    ensures ReturnCode() == ReturnBody() + [Jump(Zero, JMP)]
    ensures Straight(ReturnBody()) && |ReturnBody()| == 57
  {
    var r := Restores(Restored());
    RestoresUnfold();
    assert Straight(r);
    StraightAppend(ReturnFirst(), r);
    StraightAppend(ReturnFirst() + r, ReturnLoad());
  }

  /** What return leaves in memory, from the state s it started in:
      the return value where ARG pointed and SP just above it; THAT, THIS,
      ARG and LCL restored from FRAME - 1 to FRAME - 4 (FRAME being LCL);
      R13 and R14 holding FRAME and the return address; no other cell
      changed. */
  ghost predicate Returned(s: State, ram: Ram) {
    var frame := Read(s.ram, 1);
    var arg := Read(s.ram, 2);
    ProperFrame(s)
    && Read(ram, arg) == Read(s.ram, SP(s) - 1) && Read(ram, 0) == arg + 1
    && Read(ram, 4) == Read(s.ram, frame - 1) && Read(ram, 3) == Read(s.ram, frame - 2)
    && Read(ram, 2) == Read(s.ram, frame - 3) && Read(ram, 1) == Read(s.ram, frame - 4)
    && Read(ram, 13) == frame && Read(ram, 14) == Read(s.ram, frame - 5)
    && (forall j: Word :: j > 4 && j != 13 && j != 14 && j != arg ==> Read(ram, j) == Read(s.ram, j))
  }

  /** The memory after return, cell by cell. */
  lemma ReturnCells(s: State, ram1: Ram, ram2: Ram)
    requires ProperFrame(s)
    requires var frame := Read(s.ram, 1); var arg := Read(s.ram, 2);
      ram1 == s.ram[13 := frame][14 := Read(s.ram, frame - 5)][0 := SP(s) - 1]
                   [arg := Read(s.ram, SP(s) - 1)][0 := arg + 1]
    requires var frame := Read(s.ram, 1);
      ram2 == ram1[4 := Read(ram1, frame - 1)][3 := Read(ram1, frame - 2)]
                  [2 := Read(ram1, frame - 3)][1 := Read(ram1, frame - 4)]
    ensures Returned(s, ram2)
  {
  }

  /** The return code but its final jump. */
  function ReturnBody(): seq<Asm> {
    ReturnFirst() + Restores(Restored()) + ReturnLoad()
  }

  /** The straight part of return: A holds the return address. */
  lemma ReturnRun(env: Env, s: State)
    requires Registers(env) && ProperFrame(s)
    ensures var t := Run(ReturnBody(), env, s);
      t.a == Read(s.ram, Read(s.ram, 1) - 5) && Returned(s, t.ram)
  {
    var first := ReturnFirst();
    var rest := Restores(Restored());
    RunAppend(first + rest, ReturnLoad(), env, s);
    RunAppend(first, rest, env, s);
    ReturnFirstRun(env, s);
    var s1 := Run(first, env, s);
    RestoresRun(env, s1);
    var s2 := Run(rest, env, s1);
    Run2(ReturnLoad(), env, s2);
    ReturnCells(s, s1.ram, s2.ram);
  }

  /** return, from a proper frame: control goes to the return address
      saved at FRAME - 5, read before *ARG is overwritten (with no
      arguments, ARG is FRAME - 5), and memory is as Returned says. */
  lemma ReturnEffect(prog: seq<Asm>, env: Env, s: State)
    requires Registers(env) && ProperFrame(s) && At(prog, s.pc, ReturnCode())
    ensures var t := Exec(prog, env, s, |ReturnCode()|);
      t.pc == Read(s.ram, Read(s.ram, 1) - 5) && Returned(s, t.ram)
  {
    var body := ReturnBody();
    ReturnLayout();
    AtSplit(prog, s.pc, body, [Jump(Zero, JMP)]);
    ExecStraight(prog, body, env, s);
    ReturnRun(env, s);
    var s3 := Run(body, env, s);
    RunPc(body, env, s);
    assert prog[s.pc + 57..s.pc + 58][0] == Jump(Zero, JMP);
    ExecOne(prog, env, s3);
    ExecSplit(prog, env, s, 57, 1);
    assert Exec(prog, env, s, 58) == s3.(pc := s3.a);
  }

  /** Memory across a call and its return. t is the memory call leaves (as
      CallEffect says), s1 the state the callee returns from, and ram2 the
      memory return leaves from s1 (as Returned says). If the callee kept
      LCL, ARG and the five frame cells, return restores the caller's LCL,
      ARG, THIS and THAT, leaves the result where the n arguments began with
      SP just above it, and jumps to the call's return label. */
  lemma CallReturnFrames(f: string, n: nat, c: nat, env: Env, s0: State, t: State, s1: State, ram2: Ram)
    requires Registers(env) && n <= SP(s0) && SP(s0) + 5 < 0xFFFF
    requires var sp := SP(s0); var frame := CallFrame(f, c, env, s0.ram);
      Read(t.ram, 1) == sp + 5 && Read(t.ram, 2) == Wrap(sp - n)
      && (forall i :: 0 <= i < 5 ==> Read(t.ram, sp + i) == frame[i])
    requires Read(s1.ram, 1) == Read(t.ram, 1) && Read(s1.ram, 2) == Read(t.ram, 2)
    requires forall j: Word :: SP(s0) <= j < SP(s0) + 5 ==> Read(s1.ram, j) == Read(t.ram, j)
    requires Returned(s1, ram2)
    ensures Read(ram2, 1) == Read(s0.ram, 1) && Read(ram2, 2) == Read(s0.ram, 2)
    ensures Read(ram2, 3) == Read(s0.ram, 3) && Read(ram2, 4) == Read(s0.ram, 4)
    ensures Read(ram2, 0) == SP(s0) - n + 1 && Read(ram2, SP(s0) - n) == Read(s1.ram, SP(s1) - 1)
    ensures Read(s1.ram, Read(s1.ram, 1) - 5) == Lookup(env, RetLabel(f, c))
  {
    var sp := SP(s0);
    var frame := CallFrame(f, c, env, s0.ram);
    assert Wrap(sp - n) == sp - n;
    assert frame[1] == Read(s0.ram, 1) && frame[2] == Read(s0.ram, 2);
    assert frame[3] == Read(s0.ram, 3) && frame[4] == Read(s0.ram, 4);
    forall i | 0 <= i < 5 ensures Read(s1.ram, sp + i) == frame[i] {
      assert Read(s1.ram, sp + i) == Read(t.ram, sp + i);
    }
    assert Read(s1.ram, sp + 0) == frame[0];
    assert Read(s1.ram, sp + 1) == frame[1];
    assert Read(s1.ram, sp + 2) == frame[2];
    assert Read(s1.ram, sp + 3) == frame[3];
    assert Read(s1.ram, sp + 4) == frame[4];
  }

  /** call f n followed, once the callee has run to s1, by its return:
      control comes back to the call's return label, the caller's LCL, ARG,
      THIS and THAT are as before the call, and the n arguments are replaced
      by the one result at the top of the stack. The callee must end with
      LCL, ARG and the frame cells as call left them. */
  lemma CallReturn(prog: seq<Asm>, f: string, n: nat, c: nat, env: Env, s0: State, s1: State)
    requires Registers(env) && n + 16 <= SP(s0) && SP(s0) + 5 < 0xFFFF
    requires At(prog, s0.pc, CallCode(f, n, c))
    requires var t := Exec(prog, env, s0, |CallCode(f, n, c)| - 1);
      Read(s1.ram, 1) == Read(t.ram, 1) && Read(s1.ram, 2) == Read(t.ram, 2)
      && forall j: Word :: SP(s0) <= j < SP(s0) + 5 ==> Read(s1.ram, j) == Read(t.ram, j)
    requires SP(s1) >= 17 && At(prog, s1.pc, ReturnCode())
    ensures var u := Exec(prog, env, s1, |ReturnCode()|);
      u.pc == Lookup(env, RetLabel(f, c))
      && Read(u.ram, 1) == Read(s0.ram, 1) && Read(u.ram, 2) == Read(s0.ram, 2)
      && Read(u.ram, 3) == Read(s0.ram, 3) && Read(u.ram, 4) == Read(s0.ram, 4)
      && Read(u.ram, 0) == SP(s0) - n + 1 && Read(u.ram, SP(s0) - n) == Read(s1.ram, SP(s1) - 1)
  {
    CallEffect(prog, f, n, c, env, s0);
    var t := Exec(prog, env, s0, |CallCode(f, n, c)| - 1);
    assert Wrap(SP(s0) - n) == SP(s0) - n;
    assert ProperFrame(s1);
    ReturnEffect(prog, env, s1);
    var u := Exec(prog, env, s1, |ReturnCode()|);
    CallReturnFrames(f, n, c, env, s0, t, s1, u.ram);
  }
}
