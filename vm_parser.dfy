/** The VM translator's Parser (projects/08/VMtranslator.py): it reads a
    .vm file line by line, skips blank and comment lines, strips trailing
    comments and splits each instruction into tokens; the current one is
    queried through command_type, arg1 and arg2. The file is a sequence of
    lines and the file position is the number of lines read. */
module VmParser {
  import opened Wrappers
  import opened Text

  /** The command types of commands_dict. */
  datatype CommandType =
    | CArithmetic | CPush | CPop | CLabel | CGoto | CIf | CFunction | CReturn | CCall

  /** The arithmetic operators of commands_dict. */
  predicate IsArithmeticName(t: string) {
    t == "add" || t == "sub" || t == "neg" || t == "eq" || t == "gt" || t == "lt"
    || t == "and" || t == "or" || t == "not"
  }

  /** The command type of a first token, as commands_dict gives it: the
      table is looked up with the token in lower case; a token not in the
      table has none. */
  function CommandTypeOf(token: string): (r: Option<CommandType>)
    ensures r == Some(CArithmetic) <==> IsArithmeticName(Lower(token))
    ensures r == Some(CPush) <==> Lower(token) == "push"
    ensures r == Some(CPop) <==> Lower(token) == "pop"
    ensures r == Some(CReturn) <==> Lower(token) == "return"
    ensures r == Some(CCall) <==> Lower(token) == "call"
    ensures r == Some(CFunction) <==> Lower(token) == "function"
    ensures r == Some(CLabel) <==> Lower(token) == "label"
    ensures r == Some(CGoto) <==> Lower(token) == "goto"
    ensures r == Some(CIf) <==> Lower(token) == "if-goto"
  {
    var t := Lower(token);
    if IsArithmeticName(t) then Some(CArithmetic)
    else if t == "push" then Some(CPush) else if t == "pop" then Some(CPop)
    else if t == "label" then Some(CLabel) else if t == "goto" then Some(CGoto)
    else if t == "if-goto" then Some(CIf) else if t == "function" then Some(CFunction)
    else if t == "return" then Some(CReturn) else if t == "call" then Some(CCall)
    else None
  }

  /** argn: the n-th token of an instruction, None when it has fewer tokens. */
  function Argn(tokens: seq<string>, n: nat): (r: Option<string>)
    ensures r.Some? <==> n < |tokens|
    ensures r.Some? ==> r.value == tokens[n]
  {
    if |tokens| >= n + 1 then Some(tokens[n]) else None
  }

  /** arg1: the operator itself for an arithmetic command, the first
      operand (the second token) for every other command. */
  function Arg1(tokens: seq<string>): (r: Option<string>)
    requires |tokens| > 0
    ensures CommandTypeOf(tokens[0]) == Some(CArithmetic) ==> r == Some(tokens[0])
    ensures CommandTypeOf(tokens[0]) != Some(CArithmetic) ==> (r.Some? <==> |tokens| >= 2)
    ensures CommandTypeOf(tokens[0]) != Some(CArithmetic) && r.Some? ==> r.value == tokens[1]
  {
    if CommandTypeOf(tokens[0]) == Some(CArithmetic) then Argn(tokens, 0) else Argn(tokens, 1)
  }

  /** arg2: the second operand (the third token), None when missing. */
  function Arg2(tokens: seq<string>): (r: Option<string>)
    ensures r.Some? <==> |tokens| >= 3
    ensures r.Some? ==> r.value == tokens[2]
  {
    Argn(tokens, 2)
  }

  /** is_instruction, on a stripped line: non-empty and not starting with "//". */
  predicate IsInstruction(line: string) {
    |line| > 0 && !(|line| >= 2 && line[0] == '/' && line[1] == '/')
  }

  /** line.split('//')[0].strip().split() */
  function Tokenize(line: string): seq<string> {
    Tokens(Strip(BeforeComment(line)))
  }

  /** An instruction line, stripped, always has a first token, and the
      token starts where the line does: the trailing comment never eats it. */
  lemma TokenizeInstruction(raw: string)
    requires IsInstruction(Strip(raw))
    ensures var line := Strip(raw); |Tokenize(line)| > 0 && Tokenize(line)[0][0] == line[0]
  {
    var line := Strip(raw);
    StripFirst(raw);
    var c := BeforeComment(line);
    assert |c| > 0 && c[0] == line[0] by {
      if |line| >= 2 {
        assert c == [line[0]] + BeforeComment(line[1..]);
      }
    }
    StripKeepsFirst(c);
    TokensStartAt(Strip(c));
  }

  /** What one line of the file yields: its tokens when, stripped, it is
      an instruction, and nothing otherwise. */
  function LineTokens(raw: string): (r: seq<seq<string>>)
    ensures |r| <= 1
    ensures |r| == 1 ==> |r[0]| > 0
  {
    var line := Strip(raw);
    if IsInstruction(line) then TokenizeInstruction(raw); [Tokenize(line)] else []
  }

  /** The token lists a file yields, in order. */
  function Instructions(lines: seq<string>): seq<seq<string>> {
    if lines == [] then [] else LineTokens(lines[0]) + Instructions(lines[1..])
  }

  /** Every token list a file yields has a first token. */
  lemma {:induction false} InstructionsNonEmpty(lines: seq<string>)
    ensures forall i :: 0 <= i < |Instructions(lines)| ==> |Instructions(lines)[i]| > 0
  {
    if lines != [] {
      InstructionsNonEmpty(lines[1..]);
    }
  }

  /** The instructions of two pieces of a file, one after the other. */
  lemma {:induction false} InstructionsAppend(a: seq<string>, b: seq<string>)
    ensures Instructions(a + b) == Instructions(a) + Instructions(b)
    decreases |a|
  {
    if a == [] {
      assert a + b == b;
    } else {
      assert (a + b)[1..] == a[1..] + b;
      InstructionsAppend(a[1..], b);
    }
  }

  /** What a blank or comment-only line yields: nothing. */
  lemma SkippedLineTokens(line: string)
    requires !IsInstruction(Strip(line))
    ensures LineTokens(line) == []
  {
  }

  /** What an instruction line yields: its tokens. */
  lemma InstructionLineTokens(line: string)
    requires IsInstruction(Strip(line))
    ensures LineTokens(line) == [Tokenize(Strip(line))]
  {
  }

  lemma InstructionsSnoc(before: seq<string>, line: string)
    ensures Instructions(before + [line]) == Instructions(before) + LineTokens(line)
  {
    InstructionsAppend(before, [line]);
    assert [line][1..] == [];
  }

  /** A blank or comment-only line yields nothing, wherever it stands. */
  lemma SkippedLine(before: seq<string>, line: string, after: seq<string>)
    requires !IsInstruction(Strip(line))
    ensures Instructions(before + [line] + after) == Instructions(before + after)
  {
    SkippedLineTokens(line);
    InstructionsAppend(before + [line], after);
    InstructionsSnoc(before, line);
    InstructionsAppend(before, after);
  }

  /** An instruction line yields exactly its tokens, after what comes before. */
  lemma InstructionLine(before: seq<string>, line: string, after: seq<string>)
    requires IsInstruction(Strip(line))
    ensures Instructions(before + [line] + after)
         == Instructions(before) + [Tokenize(Strip(line))] + Instructions(after)
  {
    InstructionLineTokens(line);
    InstructionsAppend(before + [line], after);
    InstructionsSnoc(before, line);
  }

  /** Reading one more line of the file: it yields its tokens when,
      stripped, it is an instruction, and nothing otherwise. */
  lemma ReadLine(lines: seq<string>, pos: nat)
    requires pos < |lines|
    ensures var line := Strip(lines[pos]);
      Instructions(lines[pos..])
      == (if IsInstruction(line) then [Tokenize(line)] else []) + Instructions(lines[pos + 1..])
    ensures IsInstruction(Strip(lines[pos])) ==> |Tokenize(Strip(lines[pos]))| > 0
  {
    assert lines[pos..][1..] == lines[pos + 1..];
    if IsInstruction(Strip(lines[pos])) {
      TokenizeInstruction(lines[pos]);
      InstructionLineTokens(lines[pos]);
    } else {
      SkippedLineTokens(lines[pos]);
    }
  }

  class Parser {
    /** The lines of the .vm file. */
    const lines: seq<string>
    /** The file position: the number of lines read so far. */
    var pos: nat
    var eof: bool
    /** The current instruction's tokens; [] before the first advance. */
    var currInstruction: seq<string>
    var nextInstruction: seq<string>

    ghost predicate Valid()
      reads this
    {
      pos <= |lines| && (eof ==> pos == |lines|) && (!eof ==> |nextInstruction| > 0)
    }

    /** The token lists still to come, the loaded next one first. */
    ghost function Pending(): seq<seq<string>>
      reads this
      requires pos <= |lines|
    {
      (if eof then [] else [nextInstruction]) + Instructions(lines[pos..])
    }

    /** __init__ followed by initialize_file: the first instruction is
        loaded, and what is pending is every instruction of the file. */
    constructor (lines: seq<string>)
      ensures this.lines == lines && currInstruction == []
      ensures Valid() && Pending() == Instructions(lines)
    {
      this.lines := lines;
      pos := 0;
      eof := false;
      currInstruction := [];
      nextInstruction := [];
      new;
      assert lines[0..] == lines;
      LoadNextInstruction();
    }

    /** load_next_instruction: read lines until one is an instruction or
        the end of the file is reached (a read that does not move the
        position). */
    method LoadNextInstruction()
      requires pos <= |lines| && !eof
      modifies this`pos, this`eof, this`nextInstruction
      ensures Valid() && Pending() == Instructions(old(lines[pos..]))
    {
      // The file position, the end-of-file flag and the loaded tokens, kept
      // in locals while the lines are read and stored when the loop ends.
      var p, atEnd, next := pos, false, nextInstruction;
      ghost var todo := Instructions(lines[p..]);
      var loaded := false;
      while !loaded && !atEnd
        invariant p <= |lines| && (atEnd ==> p == |lines|)
        invariant loaded ==> !atEnd && |next| > 0
        invariant (if loaded then [next] else []) + Instructions(lines[p..]) == todo
        decreases |lines| - p + (if loaded || atEnd then 0 else 1)
      {
        var tell := p;
        var line := "";
        if p < |lines| {
          ReadLine(lines, p);
          line := Strip(lines[p]);
          p := p + 1;
        } else {
          assert !IsInstruction(line);
        }
        if IsInstruction(line) {
          next := Tokenize(line);
          loaded := true;
          assert Instructions(lines[tell..]) == [next] + Instructions(lines[p..]);
        } else {
          assert Instructions(lines[tell..]) == Instructions(lines[p..]);
        }
        if tell == p {
          atEnd := true;
        }
      }
      assert (if atEnd then [] else [next]) + Instructions(lines[p..]) == todo;
      pos, eof, nextInstruction := p, atEnd, next;
    }

    /** has_more_commands */
    function HasMoreCommands(): (r: bool)
      reads this
      requires Valid()
      ensures r <==> Pending() != []
    {
      !eof
    }

    /** advance: the loaded instruction becomes the current one, and the
        next one is loaded. */
    method Advance()
      requires Valid() && !eof
      modifies this`currInstruction, this`pos, this`eof, this`nextInstruction
      ensures Valid()
      ensures old(Pending()) != [] && currInstruction == old(Pending())[0]
      ensures Pending() == old(Pending())[1..]
      ensures |currInstruction| > 0
    {
      currInstruction := nextInstruction;
      LoadNextInstruction();
    }
  }
}
