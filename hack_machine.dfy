/** An interpreter for the Hack instructions the VM translator emits: a
    16-bit machine with an address register A, a data register D, a
    program counter and word-addressed RAM. Symbols are resolved through an
    environment, standing for the assembler's symbol table; a label
    stands at its own position in the program and executes as a no-op. */
module HackMachine {
  import opened Text
  import opened Hack

  const WordCount: int := 0x10000

  /** A 16-bit word, as an unsigned number. */
  type Word = w: int | 0 <= w < 0x10000

  /** Reduction modulo 2^16: the machine's wrap-around. */
  function Wrap(x: int): Word { x % 0x10000 }

  /** Two's-complement reading of a word. */
  function Signed(w: Word): int { if w < 0x8000 then w else w - 0x10000 }

  function BitAnd(x: Word, y: Word): Word { ((x as bv16) & (y as bv16)) as int }
  function BitOr(x: Word, y: Word): Word { ((x as bv16) | (y as bv16)) as int }
  function BitNot(x: Word): Word { (!(x as bv16)) as int }

  type Ram = map<Word, Word>

  /** RAM contents; cells never written read as 0. */
  function Read(ram: Ram, addr: Word): Word { if addr in ram then ram[addr] else 0 }

  /** Symbol addresses; unknown symbols read as 0. */
  type Env = map<string, Word>

  function Lookup(env: Env, name: string): Word { if name in env then env[name] else 0 }

  datatype State = State(pc: int, a: Word, d: Word, ram: Ram)

  /** The value of the stack pointer cell RAM[0]. */
  function SP(s: State): Word { Read(s.ram, 0) }

  function Eval(c: Comp, s: State): Word {
    var m := Read(s.ram, s.a);
    match c
    case Zero => 0
    case MinusOne => 0xFFFF
    case RegA => s.a
    case RegD => s.d
    case RegM => m
    case MPlusOne => Wrap(m + 1)
    case MMinusOne => Wrap(m - 1)
    case MPlusD => Wrap(m + s.d)
    case MMinusD => Wrap(m - s.d)
    case MAndD => BitAnd(m, s.d)
    case MOrD => BitOr(m, s.d)
    case NegM => Wrap(-(m as int))
    case NotM => BitNot(m)
    case DPlusA => Wrap(s.d + s.a)
    case DMinusA => Wrap(s.d - s.a)
    case DPlusOne => Wrap(s.d + 1)
  }

  predicate Taken(j: Cond, v: Word) {
    match j
    case JEQ => v == 0
    case JGT => Signed(v) > 0
    case JLT => Signed(v) < 0
    case JNE => v != 0
    case JMP => true
  }

  /** One instruction. A taken jump continues at the address in A. */
  function Exec1(i: Asm, env: Env, s: State): State {
    match i
    case AConst(n) => s.(pc := s.pc + 1, a := Wrap(n))
    case ASym(name) => s.(pc := s.pc + 1, a := Lookup(env, name))
    case Assign(dest, c) =>
      var v := Eval(c, s);
      (match dest
       case DestA => s.(a := v)
       case DestD => s.(d := v)
       case DestM => s.(ram := s.ram[s.a := v])).(pc := s.pc + 1)
    case Jump(c, j) => if Taken(j, Eval(c, s)) then s.(pc := s.a) else s.(pc := s.pc + 1)
    case Label(_) => s.(pc := s.pc + 1)
    case Comment(_) => s.(pc := s.pc + 1)
  }

  /** Code without jumps. */
  predicate Straight(code: seq<Asm>) {
    forall k :: 0 <= k < |code| ==> !code[k].Jump?
  }

  /** Straight-line execution of code, one instruction after the other. */
  function Run(code: seq<Asm>, env: Env, s: State): State
    decreases |code|, s
  {
    if code == [] then s else Run(code[1..], env, Exec1(code[0], env, s))
  }

  /** n steps of the machine running program prog; it stops when the pc
      leaves the program. */
  function Exec(prog: seq<Asm>, env: Env, s: State, n: nat): State
    decreases n, s
  {
    if n == 0 || !(0 <= s.pc < |prog|) then s
    else Exec(prog, env, Exec1(prog[s.pc], env, s), n - 1)
  }

  lemma {:induction false} RunAppend(c1: seq<Asm>, c2: seq<Asm>, env: Env, s: State)
    ensures Run(c1 + c2, env, s) == Run(c2, env, Run(c1, env, s))
    decreases |c1|
  {
    if c1 != [] {
      assert (c1 + c2)[1..] == c1[1..] + c2;
      RunAppend(c1[1..], c2, env, Exec1(c1[0], env, s));
    } else {
      assert c1 + c2 == c2;
    }
  }

  /** Straight-line code advances the pc by its length. */
  lemma {:induction false} RunPc(code: seq<Asm>, env: Env, s: State)
    requires Straight(code)
    ensures Run(code, env, s).pc == s.pc + |code|
    decreases |code|
  {
    if code != [] {
      RunPc(code[1..], env, Exec1(code[0], env, s));
    }
  }

  lemma {:induction false} ExecSplit(prog: seq<Asm>, env: Env, s: State, m: nat, n: nat)
    ensures Exec(prog, env, s, m + n) == Exec(prog, env, Exec(prog, env, s, m), n)
    decreases m
  {
    if m > 0 && 0 <= s.pc < |prog| {
      ExecSplit(prog, env, Exec1(prog[s.pc], env, s), m - 1, n);
    }
  }

  /** Straight-line code that sits in the program at the pc runs there as
      it runs on its own. */
  lemma {:induction false} ExecStraight(prog: seq<Asm>, code: seq<Asm>, env: Env, s: State)
    requires Straight(code)
    requires 0 <= s.pc && s.pc + |code| <= |prog| && prog[s.pc..s.pc + |code|] == code
    ensures Exec(prog, env, s, |code|) == Run(code, env, s)
    decreases |code|
  {
    if code != [] {
      assert prog[s.pc] == code[0];
      var t := Exec1(code[0], env, s);
      assert t.pc == s.pc + 1;
      assert prog[t.pc..t.pc + |code[1..]|] == code[1..];
      ExecStraight(prog, code[1..], env, t);
    }
  }

  /** code sits in prog at position p. */
  predicate At(prog: seq<Asm>, p: int, code: seq<Asm>) {
    0 <= p && p + |code| <= |prog| && prog[p..p + |code|] == code
  }

  /** The two halves of a block sit one after the other. */
  lemma AtSplit(prog: seq<Asm>, p: int, c1: seq<Asm>, c2: seq<Asm>)
    requires At(prog, p, c1 + c2)
    ensures At(prog, p, c1) && At(prog, p + |c1|, c2)
  {
    assert prog[p..p + |c1|] == (c1 + c2)[..|c1|];
    assert prog[p + |c1|..p + |c1| + |c2|] == (c1 + c2)[|c1|..];
  }

  /** Any piece of a block sits inside it. */
  lemma AtSlice(prog: seq<Asm>, p: int, code: seq<Asm>, i: int, j: int)
    requires At(prog, p, code) && 0 <= i <= j <= |code|
    ensures At(prog, p + i, code[i..j])
  {
    forall t | 0 <= t < j - i
      ensures prog[p + i..p + j][t] == code[i..j][t]
    {
      assert prog[p..p + |code|][i + t] == prog[p + i + t];
    }
    assert prog[p + i..p + j] == code[i..j];
  }

  /** One step at an instruction that sits in the program. */
  lemma ExecOne(prog: seq<Asm>, env: Env, s: State)
    requires 0 <= s.pc < |prog|
    ensures Exec(prog, env, s, 1) == Exec1(prog[s.pc], env, s)
  {
  }

  /** m steps to mid, then n steps to t: m + n steps to t. */
  lemma ExecThen(prog: seq<Asm>, env: Env, s: State, m: nat, n: nat, mid: State, t: State)
    requires Exec(prog, env, s, m) == mid && Exec(prog, env, mid, n) == t
    ensures Exec(prog, env, s, m + n) == t
  {
    ExecSplit(prog, env, s, m, n);
  }
}

