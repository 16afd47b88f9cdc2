/** The Hack assembly lines the VM translator writes: A-instructions,
    the C-instruction forms it uses (a single destination, or a jump),
    label declarations and comments. */
module Hack {
  import opened Text

  /** The destination register of an assignment. */
  datatype Dest = DestA | DestD | DestM

  /** The computations the VM translator uses. The names read left to
      right as the mnemonic does: MPlusD is "M+D". */
  datatype Comp =
    | Zero | MinusOne
    | RegA | RegD | RegM
    | MPlusOne | MMinusOne | MPlusD | MMinusD | MAndD | MOrD | NegM | NotM
    | DPlusA | DMinusA | DPlusOne

  /** Jump conditions, tested on the value of the computation. */
  datatype Cond = JEQ | JGT | JLT | JNE | JMP

  datatype Asm =
    | AConst(value: nat)              // @value
    | ASym(symbol: string)            // @symbol
    | Assign(dest: Dest, comp: Comp)  // dest=comp
    | Jump(comp: Comp, cond: Cond)    // comp;cond
    | Label(name: string)             // (name): a jump target, not an instruction
    | Comment(text: string)           // "//" + text: not an instruction

  /** Lines that are instructions; these are the ones the writer numbers. */
  predicate IsCode(i: Asm) {
    i.AConst? || i.ASym? || i.Assign? || i.Jump?
  }

  /** The number of instructions (not labels or comments) in code. */
  function CodeLines(code: seq<Asm>): nat {
    if code == [] then 0 else CodeLines(code[..|code| - 1]) + (if IsCode(code[|code| - 1]) then 1 else 0)
  }

  lemma {:induction false} CodeLinesAppend(a: seq<Asm>, b: seq<Asm>)
    ensures CodeLines(a + b) == CodeLines(a) + CodeLines(b)
    decreases |b|
  {
    if b != [] {
      assert (a + b)[..|a + b| - 1] == a + b[..|b| - 1];
      CodeLinesAppend(a, b[..|b| - 1]);
    } else {
      assert a + b == a;
    }
  }

  function DestText(d: Dest): string {
    match d
    case DestA => "A"
    case DestD => "D"
    case DestM => "M"
  }

  function CompText(c: Comp): string {
    match c
    case Zero => "0"
    case MinusOne => "-1"
    case RegA => "A"
    case RegD => "D"
    case RegM => "M"
    case MPlusOne => "M+1"
    case MMinusOne => "M-1"
    case MPlusD => "M+D"
    case MMinusD => "M-D"
    case MAndD => "M&D"
    case MOrD => "M|D"
    case NegM => "-M"
    case NotM => "!M"
    case DPlusA => "D+A"
    case DMinusA => "D-A"
    case DPlusOne => "D+1"
  }

  function CondText(j: Cond): string {
    match j
    case JEQ => "JEQ"
    case JGT => "JGT"
    case JLT => "JLT"
    case JNE => "JNE"
    case JMP => "JMP"
  }

  /** The text of the line, as the writer puts it in the .asm file
      (without the " // n" line-number suffix). */
  function Render(i: Asm): string {
    match i
    case AConst(n) => "@" + NatToString(n)
    case ASym(s) => "@" + s
    case Assign(d, c) => DestText(d) + "=" + CompText(c)
    case Jump(c, j) => CompText(c) + ";" + CondText(j)
    case Label(name) => "(" + name + ")"
    case Comment(text) => "//" + text
  }

  /** The predefined symbols of Hack assembly and their RAM addresses:
      the virtual registers, R0 to R15, and the memory-mapped screen and
      keyboard. */
  function Predefined(): map<string, nat> {
    map[
      "SP" := 0, "LCL" := 1, "ARG" := 2, "THIS" := 3, "THAT" := 4,
      "R0" := 0, "R1" := 1, "R2" := 2, "R3" := 3, "R4" := 4, "R5" := 5,
      "R6" := 6, "R7" := 7, "R8" := 8, "R9" := 9, "R10" := 10, "R11" := 11,
      "R12" := 12, "R13" := 13, "R14" := 14, "R15" := 15,
      "SCREEN" := 16384, "KBD" := 24576
    ]
  }
}
