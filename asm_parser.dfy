/** The Parser of the Hack assembler (projects/06/assembler.py): which
    lines of a .asm file are instructions, and how each instruction is
    taken apart into an A-, L- or C-command. The file is a sequence of
    lines (without their line ends); readline past the end gives "". */
module AsmParser {
  import opened Wrappers
  import opened Text
  import opened Hack

  /** What parse_A, parse_L and parse_C store: the symbol of an A- or
      L-command, or the dest, comp and jump fields of a C-command. */
  datatype Command =
    | ACommand(symbol: string)
    | LCommand(symbol: string)
    | CCommand(dest: Option<string>, comp: string, jump: Option<string>)

  /** parse_A: "@xxx" has the symbol xxx. */
  function ParseA(instruction: string): (r: Command)
    ensures r.ACommand? && (|instruction| > 0 ==> [instruction[0]] + r.symbol == instruction)
  {
    ACommand(if |instruction| > 0 then instruction[1..] else "")
  }

  /** parse_L: "(xxx)" declares the label xxx; instruction[1:-1] of a
      single character is empty. */
  function ParseL(instruction: string): (r: Command)
    ensures r.LCommand?
    ensures |instruction| >= 2 ==> [instruction[0]] + r.symbol + [instruction[|instruction| - 1]] == instruction
  {
    LCommand(if |instruction| >= 2 then instruction[1..|instruction| - 1] else "")
  }

  /** parse_C: split on ';' (a jump when there are exactly two parts), then
      the part before it on '=' (a dest when there are exactly two parts);
      the comp is what is left. */
  function ParseC(instruction: string): (r: Command)
    ensures r.CCommand?
    ensures r.jump.Some? <==> Count(instruction, ';') == 1
    ensures '=' !in r.comp && (r.dest.Some? ==> '=' !in r.dest.value)
    ensures r.jump.Some? ==> ';' !in r.jump.value
  {
    SplitCount(instruction, ';');
    var parts := Split(instruction, ';');
    var jump := if |parts| == 2 then Some(parts[1]) else None;
    ParseCFields(parts[0], jump)
  }

  /** The text dest=comp;jump, without "dest=" when there is no dest and
      without ";jump" when there is no jump. */
  function CText(dest: Option<string>, comp: string, jump: Option<string>): string {
    (if dest.Some? then dest.value + "=" else "") + comp + (if jump.Some? then ";" + jump.value else "")
  }

  /** parse_C takes apart what CText puts together, when the fields hold
      no separators. */
  lemma ParseCText(dest: Option<string>, comp: string, jump: Option<string>)
    requires ';' !in comp && '=' !in comp
    requires dest.Some? ==> ';' !in dest.value && '=' !in dest.value
    requires jump.Some? ==> ';' !in jump.value
    ensures ParseC(CText(dest, comp, jump)) == CCommand(dest, comp, jump)
  {
    var head := (if dest.Some? then dest.value + "=" else "") + comp;
    assert ';' !in head;
    if jump.Some? {
      assert CText(dest, comp, jump) == head + [';'] + jump.value;
      SplitOnce(head, ';', jump.value);
    } else {
      assert CText(dest, comp, jump) == head;
    }
    if dest.Some? {
      assert head == dest.value + ['='] + comp;
      SplitOnce(dest.value, '=', comp);
    }
  }

  /** parse_C loses nothing of an instruction with at most one ';' and
      at most one '=': putting its fields back together gives the text. */
  lemma CTextOfParseC(instruction: string)
    requires Count(instruction, ';') <= 1 && Count(instruction, '=') <= 1
    ensures var r := ParseC(instruction); CText(r.dest, r.comp, r.jump) == instruction
  {
    var parts := Split(instruction, ';');
    SplitAtMostOnce(instruction, ';');
    var head := parts[0];
    var jump := if |parts| == 2 then Some(parts[1]) else None;
    var tail := if jump.Some? then ";" + jump.value else "";
    assert instruction == head + tail;
    CountAppend(head, tail, '=');
    HeadOfParseC(head, jump);
    assert ParseC(instruction) == ParseCFields(head, jump);
  }

  /** The second half of parse_C: the text before ';' split on '='. */
  function ParseCFields(head: string, jump: Option<string>): Command {
    var fields := Split(head, '=');
    if |fields| == 2 then CCommand(Some(fields[0]), fields[1], jump)
    else CCommand(None, fields[0], jump)
  }

  /** The part before ';' with at most one '=' is dest=comp or comp. */
  lemma HeadOfParseC(head: string, jump: Option<string>)
    requires Count(head, '=') <= 1
    ensures var r := ParseCFields(head, jump);
      r.jump == jump && (if r.dest.Some? then r.dest.value + "=" else "") + r.comp == head
  {
    SplitAtMostOnce(head, '=');
  }

  /** advance: '@' starts an A-command, '(' an L-command, anything else is
      a C-command. */
  function Parse(instruction: string): (r: Command)
    requires |instruction| > 0
    ensures r.ACommand? <==> instruction[0] == '@'
    ensures r.LCommand? <==> instruction[0] == '('
  {
    if instruction[0] == '@' then ParseA(instruction)
    else if instruction[0] == '(' then ParseL(instruction)
    else ParseC(instruction)
  }

  /** Whether an instruction advances instruction_num: A- and C-commands
      do, labels do not. */
  predicate IsReal(instruction: string) {
    |instruction| > 0 && instruction[0] != '('
  }

  /** The mnemonics the VM translator writes hold no separator of
      parse_C, and none starts like an A-command or a label. */
  lemma MnemonicTexts(d: Dest, c: Comp, j: Cond)
    ensures ';' !in DestText(d) && '=' !in DestText(d) && DestText(d)[0] !in {'@', '('}
    ensures ';' !in CompText(c) && '=' !in CompText(c) && CompText(c)[0] !in {'@', '('}
    ensures ';' !in CondText(j)
  {
    match c {
      case Zero => case MinusOne => case RegA => case RegD => case RegM =>
      case MPlusOne => case MMinusOne => case MPlusD => case MMinusD =>
      case MAndD => case MOrD => case NegM => case NotM =>
      case DPlusA => case DMinusA => case DPlusOne =>
    }
  }

  /** Parse reads back the text of each C-instruction the VM translator
      writes as its dest, comp and jump fields. */
  lemma ParseRenderedC(i: Asm)
    requires i.Assign? || i.Jump?
    ensures i.Assign? ==> Parse(Render(i)) == CCommand(Some(DestText(i.dest)), CompText(i.comp), None)
    ensures i.Jump? ==> Parse(Render(i)) == CCommand(None, CompText(i.comp), Some(CondText(i.cond)))
  {
    if i.Assign? {
      MnemonicTexts(i.dest, i.comp, JMP);
      assert Render(i) == CText(Some(DestText(i.dest)), CompText(i.comp), None);
      assert Render(i)[0] == DestText(i.dest)[0];
      ParseCText(Some(DestText(i.dest)), CompText(i.comp), None);
    } else {
      MnemonicTexts(DestA, i.comp, i.cond);
      assert Render(i) == CText(None, CompText(i.comp), Some(CondText(i.cond)));
      assert Render(i)[0] == CompText(i.comp)[0];
      ParseCText(None, CompText(i.comp), Some(CondText(i.cond)));
    }
  }

  /** Parse reads back the A-instructions and labels the VM translator
      writes as their symbol. */
  lemma ParseRenderedA(i: Asm)
    requires i.AConst? || i.ASym? || i.Label?
    ensures i.AConst? ==> Parse(Render(i)) == ACommand(NatToString(i.value))
    ensures i.ASym? ==> Parse(Render(i)) == ACommand(i.symbol)
    ensures i.Label? ==> Parse(Render(i)) == LCommand(i.name)
  {
    var t := Render(i);
    if i.Label? {
      assert t[1..|t| - 1] == i.name;
    } else {
      assert t[1..] == if i.AConst? then NatToString(i.value) else i.symbol;
    }
  }

  // ------------------------------------------------- which lines are read

  /** is_not_instruction: a blank line or one that starts with "//",
      which is to say a line with nothing before its comment. */
  predicate IsNotInstruction(line: string)
    ensures IsNotInstruction(line) <==> BeforeComment(line) == ""
  {
    BeforeCommentPrefix(line);
    line == "" || (|line| >= 2 && line[..2] == "//")
  }

  /** What get_next_instruction makes of a line: stripped, cut at "//",
      stripped again. The result holds no comment and no surrounding
      space, and it is empty exactly for the lines reset_file skips. */
  function Clean(line: string): (r: string)
    ensures r == "" <==> IsNotInstruction(Strip(line))
    ensures NoComment(r) && (|r| > 0 ==> !IsSpace(r[0]) && !IsSpace(r[|r| - 1]))
  {
    var s := Strip(line);
    var b := BeforeComment(s);
    StripFirst(line);
    BeforeCommentPrefix(s);
    StripSlice(b);
    if b != "" then
      assert b[0] == s[0];
      StripKeepsFirst(b);
      Strip(b)
    else
      Strip(b)
  }

  /** The line readline gives at position i: "" past the end. */
  function LineAt(lines: seq<string>, i: nat): string {
    if i < |lines| then lines[i] else ""
  }

  /** The position of the line reset_file stops at: the first one that is
      an instruction once stripped, or the end of the file. */
  function FirstInstruction(lines: seq<string>): (k: nat)
    ensures k <= |lines|
  {
    if lines == [] then 0
    else if !IsNotInstruction(Strip(lines[0])) then 0
    else 1 + FirstInstruction(lines[1..])
  }

  /** The line at FirstInstruction, when there is one, is an instruction. */
  lemma {:induction false} FirstInstructionFound(lines: seq<string>)
    ensures FirstInstruction(lines) < |lines| ==> !IsNotInstruction(Strip(lines[FirstInstruction(lines)]))
  {
    if lines != [] && IsNotInstruction(Strip(lines[0])) {
      FirstInstructionFound(lines[1..]);
    }
  }

  /** FirstInstruction is the position of the first line that is an
      instruction once stripped, and the end when there is none. */
  lemma {:induction false} FirstInstructionIs(lines: seq<string>, k: nat)
    requires k <= |lines|
    requires forall j :: 0 <= j < k ==> IsNotInstruction(Strip(lines[j]))
    requires k < |lines| ==> !IsNotInstruction(Strip(lines[k]))
    ensures FirstInstruction(lines) == k
  {
    if k > 0 {
      assert IsNotInstruction(Strip(lines[0]));
      assert forall j :: 0 <= j < k - 1 ==> lines[1..][j] == lines[j + 1];
      FirstInstructionIs(lines[1..], k - 1);
    }
  }

  /** The instructions get_next_instruction gives for the lines that
      follow: each line cleaned, up to the first that cleans to "", where
      has_more_commands turns false. */
  function Following(lines: seq<string>): (r: seq<string>)
    ensures forall j :: 0 <= j < |r| ==> |r[j]| > 0
  {
    if lines == [] || Clean(lines[0]) == "" then []
    else [Clean(lines[0])] + Following(lines[1..])
  }

  /** The instructions of a file, in the order advance sees them: the first
      instruction line, stripped (reset_file keeps its trailing comment),
      then the lines that follow it, as get_next_instruction reads them. */
  function Stream(lines: seq<string>): (r: seq<string>)
    ensures forall j :: 0 <= j < |r| ==> |r[j]| > 0
  {
    var k := FirstInstruction(lines);
    FirstInstructionFound(lines);
    if k == |lines| then [] else [Strip(lines[k])] + Following(lines[k + 1..])
  }

  /** A line after the first instruction that cleans to "" (a blank or
      comment-only line) ends the stream: the lines after it are never
      read. */
  lemma StreamStopsAtBlank(lines: seq<string>, j: nat)
    requires FirstInstruction(lines) < j < |lines| && Clean(lines[j]) == ""
    ensures Stream(lines) == Stream(lines[..j])
  {
    var k := FirstInstruction(lines);
    var pre := lines[..j];
    assert |pre| == j && pre[k] == lines[k];
    FirstInstructionPrefix(lines, j);
    FollowingStops(lines, k + 1, j);
    StreamAt(lines, k);
    StreamAt(pre, k);
  }

  /** What follows position i stops at a line j >= i that cleans to "". */
  lemma FollowingStops(lines: seq<string>, i: nat, j: nat)
    requires i <= j < |lines| && Clean(lines[j]) == ""
    ensures Following(lines[i..]) == Following(lines[..j][i..])
  {
    assert lines[i..][j - i] == lines[j];
    FollowingPrefix(lines[i..], j - i);
    SliceOfSlice(lines, i, j);
  }

  /** Stream, from its first instruction k. */
  lemma StreamAt(lines: seq<string>, k: nat)
    requires k == FirstInstruction(lines) < |lines|
    ensures Stream(lines) == [Strip(lines[k])] + Following(lines[k + 1..])
  {
  }

  lemma {:induction false} FirstInstructionPrefix(lines: seq<string>, j: nat)
    requires FirstInstruction(lines) < j <= |lines|
    ensures FirstInstruction(lines[..j]) == FirstInstruction(lines)
    decreases j
  {
    if IsNotInstruction(Strip(lines[0])) {
      assert lines[..j][1..] == lines[1..][..j - 1];
      FirstInstructionPrefix(lines[1..], j - 1);
    }
  }

  lemma {:induction false} FollowingPrefix(lines: seq<string>, j: nat)
    requires j < |lines| && Clean(lines[j]) == ""
    ensures Following(lines) == Following(lines[..j])
    decreases j
  {
    if j > 0 && Clean(lines[0]) != "" {
      assert lines[..j][1..] == lines[1..][..j - 1];
      FollowingPrefix(lines[1..], j - 1);
    }
  }

  // ------------------------------------------------------------ the Parser

  class Parser {
    /** The lines of the loaded file, and the position readline is at. */
    var lines: seq<string>
    var next: nat
    var currInstruction: string
    var instructionNum: int
    /** The fields the last parse_A, parse_L or parse_C set; None until
        the first advance. */
    var command: Option<Command>

    ghost predicate Valid()
      reads this`lines, this`next, this`instructionNum
    {
      next <= |lines| && instructionNum >= -1
    }

    /** The instructions advance has not seen yet: the current one and what
        get_next_instruction will give after it. */
    ghost function Pending(): seq<string>
      reads this`lines, this`next, this`currInstruction
      requires next <= |lines|
    {
      if currInstruction == "" then [] else [currInstruction] + Following(lines[next..])
    }

    /** Parser(): no file is loaded yet, so there is nothing to read. */
    constructor ()
      ensures Valid() && lines == [] && Pending() == []
      ensures instructionNum == -1 && command == None
    {
      lines := [];
      next := 0;
      currInstruction := "";
      instructionNum := -1;
      command := None;
    }

    /** load_file: take the lines of a file, read up to its first
        instruction and forget the fields of the last command. */
    method LoadFile(ls: seq<string>)
      modifies this
      ensures Valid() && lines == ls && Pending() == Stream(ls)
      ensures instructionNum == -1 && command == None
    {
      lines := ls;
      ResetFile();
      command := None;
    }

    /** readline, stripped as every caller strips it. */
    method ReadLine() returns (line: string)
      requires next <= |lines|
      modifies this`next
      ensures line == Strip(LineAt(lines, old(next)))
      ensures next == if old(next) < |lines| then old(next) + 1 else old(next)
    {
      line := Strip(LineAt(lines, next));
      if next < |lines| {
        next := next + 1;
      }
    }

    /** reset_file: read up to the first instruction line, and number the
        instructions from -1 again. */
    method ResetFile()
      modifies this`next, this`currInstruction, this`instructionNum
      ensures Valid() && Pending() == Stream(lines) && instructionNum == -1
    {
      next := 0;
      var line := ReadLine();
      while IsNotInstruction(line) && next < |lines|
        invariant next <= |lines|
        invariant next == 0 ==> lines == [] && line == ""
        invariant next > 0 ==> line == Strip(lines[next - 1])
        invariant forall j :: 0 <= j < next - 1 ==> IsNotInstruction(Strip(lines[j]))
        decreases |lines| - next
      {
        line := ReadLine();
      }
      instructionNum := -1;
      if IsNotInstruction(line) {
        currInstruction := "";
        FirstInstructionIs(lines, |lines|);
      } else {
        currInstruction := line;
        FirstInstructionIs(lines, next - 1);
      }
    }

    /** has_more_commands */
    function HasMoreCommands(): (r: bool)
      reads this`lines, this`next, this`currInstruction
      requires next <= |lines|
      ensures r <==> Pending() != []
    {
      currInstruction != ""
    }

    /** get_next_instruction */
    method GetNextInstruction()
      requires Valid()
      modifies this`next, this`currInstruction
      ensures Valid() && currInstruction == Clean(LineAt(lines, old(next)))
      ensures next == if old(next) < |lines| then old(next) + 1 else old(next)
    {
      var line := ReadLine();
      line := BeforeComment(line);
      currInstruction := Strip(line);
    }

    /** advance: parse the current instruction, count it unless it is a
        label, and read the next one. */
    method Advance()
      requires Valid() && currInstruction != ""
      modifies this`next, this`currInstruction, this`instructionNum, this`command
      ensures Valid()
      ensures command == Some(Parse(old(currInstruction)))
      ensures instructionNum == old(instructionNum) + (if IsReal(old(currInstruction)) then 1 else 0)
      ensures old(Pending()) != [] && Pending() == old(Pending())[1..]
    {
      ghost var rest := Following(lines[next..]);
      var ci := currInstruction;
      if ci[0] == '@' {
        command := Some(ParseA(ci));
        instructionNum := instructionNum + 1;
      } else if ci[0] == '(' {
        command := Some(ParseL(ci));
      } else {
        command := Some(ParseC(ci));
        instructionNum := instructionNum + 1;
      }
      ghost var n := next;
      GetNextInstruction();
      if n < |lines| {
        assert lines[n..][0] == lines[n] && lines[n..][1..] == lines[n + 1..];
      } else {
        assert Strip("") == "";
      }
    }
  }
}
