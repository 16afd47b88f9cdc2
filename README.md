# nand2tetris: the VM translator and the Hack assembler, in Dafny

This project models two programs of a nand2tetris solution.

- **The VM translator** (`projects/08/VMtranslator.py`) turns `.vm` files
  of stack-machine commands into Hack assembly.
  - Its `Parser` reads a file one instruction (a list of tokens) at a time.
  - Its `CodeWriter` writes the assembly for each command.
  - Its `Main.translate` dispatches each command to the `CodeWriter`.
- **The Hack assembler** (`projects/06/assembler.py`) turns a `.asm` file
  into `.hack` words of sixteen binary digits.
  - Its `Parser` takes instructions apart.
  - `Code` encodes the `dest`, `comp` and `jump` fields.
  - `SymbolTable` holds the predefined symbols.
  - `Assembler.assemble` makes two passes over the file.

Each program keeps the form of its source:

- The Python classes that update their fields become Dafny classes with
  `modifies` clauses. These are both parsers, the `CodeWriter`, the
  assemblers' `SymbolTable` and `Assembler`, and the `Main` loop (here
  `Translator`).
- Each loop of the source is a Dafny loop, proved against a function
  that folds one step over the input read so far. The `while` loops are
  `load_next_instruction`, the two passes of `assemble`, `translate` and
  the loop over the files. The `for` loops are those of `write_function`,
  `write_call` and `write_return`.
- The pure parts become functions with lemmas. These are the tokenizer,
  the mnemonic tables, `create_address`, and the code blocks that each
  `write_*` method writes.

Text is modelled as strings of characters. The output of the VM
translator is a sequence of `Hack.Asm` lines: A-instructions with a
constant or a symbol, assignments `dest=comp`, jumps `comp;cond`, label
declarations and comments. `Hack.Render` gives each line's text.

Beside the translation, the model gives the Hack computer a semantics
(`HackMachine`: 16-bit words, RAM, the A and D registers, a program
counter and jumps). With it, the project proves what the generated code
*does*, one VM command at a time:

- `push`, `pop`, the nine arithmetic and logic commands, `label`, `goto`,
  `if-goto`, `function`, `call` and `return` each move the stack and
  frame as the VM specifies;
- no cell outside the stated ones changes.

The main properties proved are these:

- The VM parser yields exactly the tokens of the file's instruction
  lines, in order, and never an empty token list.
- Each `CodeWriter` method appends exactly its command's code block and
  keeps `line_count` equal to the number of instructions written.
- Translating a file or a program stops at the first command that
  raises. `bool_count` and `call_count` advance by the number of
  comparisons and calls.
- The labels the translator invents are distinct where they must be.
  These are `BOOLk`, `ENDBOOLk`, the return labels, and the
  `file$label` labels. `bool_count` and `call_count` belong to the one
  `CodeWriter` of a run, so across all files the comparisons are
  numbered in order from 0 and the calls from 1, after the bootstrap's
  call 0 (`VmRunLabels`). No two comparisons of a run share a `BOOL` or
  `ENDBOOL` label, and no two calls share a return label, whatever the
  functions are called.
- The first pass gives each label the address of the next
  A- or C-command; of two declarations, the last one wins.
- The second pass gives new variables distinct RAM addresses from 16
  upward. It writes one 16-digit binary word per A- or C-command, when
  the program is small enough and its constants fit in 15 bits.
- The assembler's `Parser` stops at the first blank or comment-only line
  after the first instruction. `has_more_commands` is false on an empty
  line, so the lines after it are never assembled. The first instruction
  line is only stripped, so it keeps a trailing `//` comment.
- Comparisons compute `x - y` in 16 bits. So `eq` is always right, and
  `gt` and `lt` are right unless the difference overflows. The lemma
  `VmSemantics.GtOverflow` shows `32767 > -32768` coming out false.
- The two programs disagree on two computations. The translator writes
  `add` and `or` as `M=M+D` and `M=M|D`. The assembler reads the `M` as
  `A` and looks up `A+D` and `A|D`, which its table does not list (it has
  `D+A` and `D|A`), so both get the bits `000000`, those of `D&A`. Every
  other computation the translator writes is encoded as the Hack
  specification says (`HackCode.CompOfTranslator`,
  `HackAssembler.TranslatorWord`). The model keeps this behaviour as
  written.

### Behaviour of the code as written

- `pop constant i` is not rejected, although the nand2tetris VM
  specification (chapter 7 of *The Elements of Computing Systems*) gives
  `pop constant` no meaning. `resolve_address` writes `@i` and the pop
  then stores into RAM[i].
- A command whose type `commands_dict` does not know writes only its
  echo line. Translation goes on.
- `write_arithmetic` writes the operand prefix before it checks the
  operator, then raises. So an unknown or upper-case operator leaves that
  prefix in the output and stops the translation. `command_type` lowers
  the token, but `write_arithmetic` compares it as written.
- `write_L` overwrites an existing entry. A label declared twice gets
  the address of its last declaration, and a label named like a
  predefined symbol replaces it.
- `write_init` calls `write_call`, so the first user call is numbered 1.

## Model

| member | source | states |
|---|---|---|
| `VmParser.CommandTypeOf` | projects/08/VMtranslator.py:76-95 | Each of the nine command types is given exactly to its first token's lower-case spelling in `commands_dict`; any other token has no type |
| `VmParser.Argn` | projects/08/VMtranslator.py:71-74 | A token is returned exactly when the instruction has more than `n` tokens, and then it is the n-th |
| `VmParser.Arg1` | projects/08/VMtranslator.py:36-41 | For an arithmetic command, the operator token itself; otherwise the second token, present exactly when there are two tokens or more |
| `VmParser.Arg2` | projects/08/VMtranslator.py:43-46 | The third token, present exactly when there are three tokens or more |
| `VmParser.TokenizeInstruction` | projects/08/VMtranslator.py:57-69 | A line that `is_instruction` accepts, once stripped, splits into at least one token, and the first token starts with the line's first character |
| `VmParser.LineTokens` | projects/08/VMtranslator.py:61-63 | One line yields at most one token list, and never an empty one |
| `VmParser.InstructionsNonEmpty` | projects/08/VMtranslator.py:57-69 | No instruction the file yields is an empty token list |
| `VmParser.InstructionsAppend` | projects/08/VMtranslator.py:57-66 | The instructions of two parts of a file are those of the first part followed by those of the second |
| `VmParser.SkippedLine` | projects/08/VMtranslator.py:68-69 | A blank or comment-only line, wherever it stands, adds no instruction |
| `VmParser.InstructionLine` | projects/08/VMtranslator.py:61-63 | An instruction line adds exactly its own tokens, between the instructions before it and those after |
| `VmParser.ReadLine` | projects/08/VMtranslator.py:59-66 | Reading the line at the position yields its tokens when it is an instruction, or nothing otherwise, and what remains is the instructions of the lines after it |
| `VmParser.Parser.constructor` | projects/08/VMtranslator.py:14-21 | After `__init__`, which calls `initialize_file`, the instructions still pending are exactly every instruction of the file |
| `VmParser.Parser.LoadNextInstruction` | projects/08/VMtranslator.py:57-66 | The loop reads lines until one is an instruction or the end is reached; afterwards the pending instructions are those of the lines from the old position on |
| `VmParser.Parser.HasMoreCommands` | projects/08/VMtranslator.py:28-30 | True exactly when some instruction is still pending |
| `VmParser.Parser.Advance` | projects/08/VMtranslator.py:24-26 | The current instruction becomes the first pending one, which is never empty, and the pending instructions lose their first element |
| `VmWriter.OperatorNames` | projects/08/VMtranslator.py:132-174 | `write_arithmetic` recognises an operator exactly when the text is its VM name (`add`, `sub`, `neg`, `eq`, `gt`, `lt`, `and`, `or`, `not`) |
| `VmWriter.SegmentNames` | projects/08/VMtranslator.py:326-353 | `resolve_address` recognises a segment exactly when the text is its VM name (the eight segments) |
| `VmWriter.ModuleNameOf` | projects/08/VMtranslator.py:125-127 | The name of `dir/name.vm` or `name.vm` is `name` (no `.` in dir or name, no `/` in name), and holds no `/` |
| `VmWriter.CodeWriter.constructor` | projects/08/VMtranslator.py:106-112 | No output, no current file, and both counters at 0 |
| `VmWriter.CodeWriter.Write` | projects/08/VMtranslator.py:313-318 | Appends one line; `line_count` goes up by one exactly for an instruction line, not for a comment or label |
| `VmWriter.CodeWriter.WriteAll` | projects/08/VMtranslator.py:313-318 | Stands for the consecutive `write` calls each `write_*` method makes (the source has no loop here): appends the lines in order and keeps `line_count` equal to the number of instruction lines in the output |
| `VmWriter.CodeWriter.IncrementSP` | projects/08/VMtranslator.py:372-374 | Appends `@SP`, `M=M+1` |
| `VmWriter.CodeWriter.DecrementSP` | projects/08/VMtranslator.py:368-370 | Appends `@SP`, `M=M-1` |
| `VmWriter.CodeWriter.SetAToStackTop` | projects/08/VMtranslator.py:376-378 | Appends `@SP`, `A=M` |
| `VmWriter.CodeWriter.PushDToStack` | projects/08/VMtranslator.py:355-360 | Appends the push-D block: store D where SP points, then increment SP |
| `VmWriter.CodeWriter.PopStackToD` | projects/08/VMtranslator.py:362-366 | Appends the pop-D block: decrement SP, then load D from where it points |
| `VmWriter.CodeWriter.WriteInit` | projects/08/VMtranslator.py:116-123 | Appends SP := 256 and the call of `Sys.init` numbered by the old `call_count`, which goes up by one |
| `VmWriter.CodeWriter.SetFileName` | projects/08/VMtranslator.py:125-130 | The current file becomes the path without `.vm` and directories, and the two header comment lines are appended |
| `VmWriter.CodeWriter.WriteArithmetic` | projects/08/VMtranslator.py:132-175 | Succeeds exactly for a known operator. The output grows by the operator's code, or by the operand prefix alone where the source raises. `bool_count` goes up by one exactly for a successful comparison |
| `VmWriter.CodeWriter.WriteOperator` | projects/08/VMtranslator.py:139-172 | Appends the operator's line, or the comparison block numbered `bool_count`; the counter goes up exactly for a comparison |
| `VmWriter.CodeWriter.WriteComparison` | projects/08/VMtranslator.py:151-172 | Appends the comparison block for the condition, with labels `BOOLk` and `ENDBOOLk` for the old `bool_count`, which goes up by one |
| `VmWriter.CodeWriter.ResolveAddress` | projects/08/VMtranslator.py:326-341 | Succeeds exactly for a known segment (and for `static`, only once a file is set), appending that segment's address code; otherwise nothing is appended |
| `VmWriter.CodeWriter.WritePushPop` | projects/08/VMtranslator.py:177-194 | Appends the resolve code and then the push or pop tail; it fails exactly where `PushPopCode` says the source raises |
| `VmWriter.CodeWriter.WriteLabel` | projects/08/VMtranslator.py:196-197 | Appends the label `file$label` |
| `VmWriter.CodeWriter.WriteGoto` | projects/08/VMtranslator.py:199-201 | Appends `@file$label`, `0;JMP` |
| `VmWriter.CodeWriter.WriteIf` | projects/08/VMtranslator.py:203-206 | Appends pop-D, `@file$label`, `D;JNE` |
| `VmWriter.CodeWriter.WriteFunction` | projects/08/VMtranslator.py:208-215 | Appends the entry label, then `k` times D := 0 and push D |
| `VmWriter.CodeWriter.WriteCall` | projects/08/VMtranslator.py:217-254 | Appends the call block for return label `f RET c` (c the old `call_count`), which goes up by one |
| `VmWriter.CodeWriter.WriteReturn` | projects/08/VMtranslator.py:256-309 | Appends the return block |
| `VmLabels.BoolLabels` | projects/08/VMtranslator.py:151-172 | `BOOLj` equals `BOOLk` exactly when j = k, and the same for `ENDBOOL`; a `BOOL` label is never an `ENDBOOL` label |
| `VmLabels.RetLabelInjective` | projects/08/VMtranslator.py:217-219 | Two return labels are equal exactly when they name the same function and the same call number |
| `VmLabels.LastSeparator` | projects/08/VMtranslator.py:218 | `a + "T" + b` with no `T` in b determines a and b, as the digits after `RET` do |
| `VmLabels.NamespacedLabelInjective` | projects/08/VMtranslator.py:196-206 | For file names without `$`, `file$label` determines both the file and the label |
| `VmLabels.NamespacedLabelFresh` | projects/08/VMtranslator.py:151-254 | A `file$label` label is never a comparison label or a return label of a function without `$` |
| `VmRunLabels.CountsAppend` | projects/08/VMtranslator.py:403-427 | The comparisons and calls of a + b are those of a plus those of b |
| `VmRunLabels.InstructionCounters` | projects/08/VMtranslator.py:403-427 | An instruction after instructions a that raised nothing is translated with `bool_count` and `call_count` advanced by the comparisons and calls of a, and its lines follow theirs in the file's code |
| `VmRunLabels.ComparisonCodeLabels` | projects/08/VMtranslator.py:151-172 | A comparison translated at `bool_count` k writes the labels `BOOLk` and `ENDBOOLk` |
| `VmRunLabels.CallCodeLabel` | projects/08/VMtranslator.py:217-254 | A call of f translated at `call_count` c writes the return label `fRETc` |
| `VmRunLabels.ComparisonNumbers` | projects/08/VMtranslator.py:172 | In a file, a comparison's number is below the number any later instruction sees, so their `BOOL` and `ENDBOOL` labels differ |
| `VmRunLabels.CallNumbers` | projects/08/VMtranslator.py:219 | In a file, a call's number is below the number any later instruction sees, so their return labels differ, whatever the functions |
| `VmRunLabels.FileCountsAppend` | projects/08/VMtranslator.py:386-387 | The comparisons and calls of files a + b are those of a plus those of b |
| `VmRunLabels.ProgramCounts` | projects/08/VMtranslator.py:386-387 | Translating files without error advances the counters by all their comparisons and calls |
| `VmRunLabels.FileCounters` | projects/08/VMtranslator.py:384-387 | A file after files a that raised nothing is translated with the counters advanced by the comparisons and calls of a, and its lines follow theirs in the program's code |
| `VmRunLabels.ProgramInstructionCounters` | projects/08/VMtranslator.py:384-427 | An instruction of a run, reached without error, is translated with the counters at its run-wide numbers |
| `VmRunLabels.FilesBetween` | projects/08/VMtranslator.py:386-387 | The files before file j hold all the comparisons and calls of file i < j and of those before it |
| `VmRunLabels.ProgramComparisonNumbers` | projects/08/VMtranslator.py:111-172 | Across a run, a comparison's number is below that of every later instruction, in its file or a later one: no two comparisons share a `BOOL` or `ENDBOOL` label |
| `VmRunLabels.ProgramCallNumbers` | projects/08/VMtranslator.py:217-219 | Across a run, a call's number is below that of every later instruction: no two calls share a return label |
| `VmRunLabels.BootstrapLabelFresh` | projects/08/VMtranslator.py:116-121 | No call of the files returns to the label of the bootstrap's call of `Sys.init` |
| `VmTranslator.IndexArg` | projects/08/VMtranslator.py:403-427 | `int(arg2)` succeeds exactly when the operand is present and is decimal digits |
| `VmTranslator.IndexArgOfString` | projects/08/VMtranslator.py:403-427 | An index written in decimal reads back as itself |
| `VmTranslator.CommandCode` | projects/08/VMtranslator.py:405-426 | The dispatch of one command. An unknown command type writes nothing and succeeds. A missing or non-numeric index fails before anything is written. An arithmetic command succeeds exactly for a known operator. The counters advance by one exactly for a successful comparison or call |
| `VmTranslator.InstructionCode` | projects/08/VMtranslator.py:406-407 | One instruction writes its echo comment first, then the code of its command |
| `VmTranslator.TranslationAppend` | projects/08/VMtranslator.py:405-426 | Translating a + b is translating a, then, unless a raised, b from the counters a left |
| `VmTranslator.TranslationSnoc` | projects/08/VMtranslator.py:405-426 | One more instruction adds its code and carries its counters |
| `VmTranslator.TranslationStops` | projects/08/VMtranslator.py:405-426 | The first instruction that raises ends the translation; nothing after it is written |
| `VmTranslator.TranslationNext` | projects/08/VMtranslator.py:405-426 | The loop step: the next pending instruction extends the translation, and if it raises the translation of the file is complete |
| `VmTranslator.TranslationCounts` | projects/08/VMtranslator.py:405-426 | A translation without errors advances `bool_count` by the number of comparisons and `call_count` by the number of calls, and writes at least a line per instruction |
| `VmTranslator.UpperCaseOperator` | projects/08/VMtranslator.py:32-34 | `ADD` has a command type but fails in `write_arithmetic` after the prefix has been written |
| `VmTranslator.FileTranslation` | projects/08/VMtranslator.py:403-405 | A file's translation starts with the two header lines of `set_file_name` |
| `VmTranslator.ProgramAppend` | projects/08/VMtranslator.py:382-388 | Translating files a + b is translating a, then, unless a raised, b from the counters a left |
| `VmTranslator.ProgramSnoc` | projects/08/VMtranslator.py:385-387 | One more file adds its translation and carries the counters |
| `VmTranslator.ProgramNext` | projects/08/VMtranslator.py:385-387 | The loop step over the files: the next pending file extends the translation |
| `VmTranslator.ProgramStops` | projects/08/VMtranslator.py:385-387 | A file that raises ends the program's translation |
| `VmTranslator.Translator.constructor` | projects/08/VMtranslator.py:382-386 | A fresh `CodeWriter` that holds exactly the `write_init` code, with `call_count` 1 and `bool_count` 0 |
| `VmTranslator.Translator.WriteCommand` | projects/08/VMtranslator.py:408-426 | Appends exactly `CommandCode`'s output, and leaves the counters and the result where it says |
| `VmTranslator.Translator.WriteStackCommand` | projects/08/VMtranslator.py:408-411 | `push` and `pop`: as `CommandCode` says |
| `VmTranslator.Translator.WriteFlowCommand` | projects/08/VMtranslator.py:414-419 | `label`, `goto` and `if-goto`: as `CommandCode` says |
| `VmTranslator.Translator.WriteFunctionCommand` | projects/08/VMtranslator.py:420-423 | `function` and `call`: as `CommandCode` says |
| `VmTranslator.Translator.WriteInstruction` | projects/08/VMtranslator.py:406-426 | The echo line, then the command: as `InstructionCode` says |
| `VmTranslator.Translator.Translate` | projects/08/VMtranslator.py:403-427 | The loop over the parser's instructions appends exactly `FileTranslation`'s output, sets the current file, and leaves the counters as it says |
| `VmTranslator.Translator.TranslateFiles` | projects/08/VMtranslator.py:382-388 | The loop over the files appends exactly `ProgramTranslation`'s output and counters |
| `VmSemantics.RegisterName` | projects/06/assembler.py:240-255 | `"R" + str(i)`, for i below 16, is the predefined symbol of cell i |
| `VmSemantics.PredefinedRegisters` | projects/06/assembler.py:233-258 | A symbol environment holding the predefined symbols resolves SP, LCL, ARG, THIS, THAT to cells 0-4 and every `"R" + str(i)` with i below 16 to cell i |
| `VmSemantics.RegisterTargets` | projects/08/VMtranslator.py:333-334 | `pointer i` addresses cell 3 + i and `temp i` cell 5 + i, while that is below R16 |
| `VmSemantics.PushRegisterEffect` | projects/08/VMtranslator.py:177-184 | `push pointer i` and `push temp i` copy cell 3 + i or 5 + i onto the stack, SP goes up by one, and no other cell changes |
| `VmSemantics.PopRegisterEffect` | projects/08/VMtranslator.py:185-192 | `pop pointer i` and `pop temp i` move the top into cell 3 + i or 5 + i, SP goes down by one, and no other cell changes but R13 |
| `VmSemantics.IncSPEffect` | projects/08/VMtranslator.py:372-374 | The code increments RAM[0] and changes nothing else |
| `VmSemantics.DecSPEffect` | projects/08/VMtranslator.py:368-370 | The code decrements RAM[0] and changes nothing else |
| `VmSemantics.SetAToStackEffect` | projects/08/VMtranslator.py:376-378 | The code leaves SP's value in A and changes no memory |
| `VmSemantics.PushDEffect` | projects/08/VMtranslator.py:355-360 | D lands in the cell SP pointed at, and SP goes up by one |
| `VmSemantics.PopDEffect` | projects/08/VMtranslator.py:362-366 | SP goes down by one, and D holds the cell it then points at |
| `VmSemantics.BaseEffect` | projects/08/VMtranslator.py:335-339 | The code for `local`, `argument`, `this` and `that` leaves base + index (16-bit) in A and changes no memory |
| `VmSemantics.PushSegmentEffect` | projects/08/VMtranslator.py:177-184 | The pushed value lands on top and SP goes up by one |
| `VmSemantics.PopSegmentEffect` | projects/08/VMtranslator.py:185-192 | R13 holds the target, SP goes down by one, and the old top value lands at the target |
| `VmSemantics.PushEffect` | projects/08/VMtranslator.py:177-184 | `push segment i`: the constant or the segment cell lands where SP pointed, SP goes up by one, and no other cell changes |
| `VmSemantics.PopEffect` | projects/08/VMtranslator.py:185-192 | `pop segment i`: the top lands at the target cell, SP goes down by one (unless the target is SP itself), and no other cell changes but R13 |
| `VmSemantics.MachineOpAgrees` | projects/08/VMtranslator.py:139-150 | The one-line operators compute the VM meaning: 16-bit `add` and `sub`, bitwise `and`, `or` and `not`, and two's-complement `neg` |
| `VmSemantics.ArithmeticEffect` | projects/08/VMtranslator.py:132-150 | `add`, `sub`, `and`, `or`, `neg`, `not`: the VM result lands in the result cell, SP points just above it, and no other cell changes |
| `VmSemantics.CompareAgrees` | projects/08/VMtranslator.py:151-160 | Testing x - y in 16 bits gives the signed comparison for `eq` always, and for `gt` and `lt` when the difference does not overflow |
| `VmSemantics.GtOverflow` | projects/08/VMtranslator.py:157-158 | For 32767 and -32768 the difference overflows and `gt` yields false where the VM meaning is true |
| `VmSemantics.CompareBlockEffect` | projects/08/VMtranslator.py:152-171 | The comparison block writes -1 to the result cell when the jump is taken and 0 otherwise, and leaves at its end |
| `VmSemantics.ComparisonEffect` | projects/08/VMtranslator.py:132-175 | `eq`, `gt`, `lt`: the block's 16-bit result lands in the cell below the old top, which is the VM truth value for `eq` and for `gt`/`lt` without overflow; SP goes down by one and no other cell changes |
| `VmSemantics.LabelEffect` | projects/08/VMtranslator.py:196-197 | The declaration line `label` writes changes no register and no memory: the machine steps over it to the next line |
| `VmSemantics.GotoEffect` | projects/08/VMtranslator.py:199-201 | `goto` moves control to the address of `file$label` and changes no memory |
| `VmSemantics.IfEffect` | projects/08/VMtranslator.py:203-206 | `if-goto` pops the top and jumps to `file$label` exactly when the popped value is not 0 |
| `VmSemantics.PushZerosEffect` | projects/08/VMtranslator.py:213-215 | k rounds of D := 0 and push D stack k zeros and nothing else |
| `VmSemantics.FunctionEffect` | projects/08/VMtranslator.py:208-215 | `function f k`: k local variables set to 0 on the stack, and nothing else changes |
| `VmFrames.PushRegistersEffect` | projects/08/VMtranslator.py:230-233 | Pushing LCL, ARG, THIS and THAT stacks their values in order |
| `VmFrames.CallHeadEffect` | projects/08/VMtranslator.py:221-224 | The start of `call` pushes the return address |
| `VmFrames.CallEffect` | projects/08/VMtranslator.py:217-254 | `call f n`: control reaches f. The return address and the caller's LCL, ARG, THIS and THAT sit at SP..SP+4. SP and LCL point just above them, and ARG at SP - n. No other cell above R2 changes |
| `VmFrames.ReturnCells` | projects/08/VMtranslator.py:278-304 | The memory that the writes of `return` leave is what `Returned` describes |
| `VmFrames.ReturnEffect` | projects/08/VMtranslator.py:256-309 | `return`: control goes to the saved return address, read before `*ARG` is overwritten. The return value sits where ARG pointed and SP just above it. THAT, THIS, ARG and LCL are restored from the frame, and no other cell but R13 and R14 changes |
| `VmFrames.CallReturnFrames` | projects/08/VMtranslator.py:217-309 | Across a call and its return, given a callee that keeps LCL, ARG and the saved frame: return restores the caller's LCL, ARG, THIS and THAT, puts the callee's result where the n arguments began with SP just above it, and jumps to the return address call saved |
| `VmFrames.CallReturn` | projects/08/VMtranslator.py:217-309 | `call f n` and, after the callee, `return`, run on the Hack machine: control comes back to the call's return label `fRETc`, the caller's LCL, ARG, THIS and THAT are as before the call, and the n arguments are replaced by the one result |
| `AsmParser.ParseA` | projects/06/assembler.py:132-136 | An A-command whose symbol is the text after `@` |
| `AsmParser.ParseL` | projects/06/assembler.py:138-142 | An L-command whose symbol is the text between the first and the last character |
| `AsmParser.ParseC` | projects/06/assembler.py:144-158 | A C-command whose jump is present exactly when the instruction holds one `;`; the comp and the dest hold no `=`, and the jump holds no `;` |
| `AsmParser.CTextOfParseC` | projects/06/assembler.py:144-158 | An instruction with at most one `;` and at most one `=` is the text of the fields `parse_C` gives it: nothing is lost |
| `AsmParser.ParseCText` | projects/06/assembler.py:144-158 | `parse_C` takes apart `dest=comp;jump` (with or without dest and jump) into exactly those fields |
| `AsmParser.Parse` | projects/06/assembler.py:118-130 | An A-command exactly when the instruction starts with `@`, an L-command exactly when it starts with `(`, a C-command otherwise |
| `AsmParser.MnemonicTexts` | projects/06/assembler.py:144-158 | The mnemonics the VM translator writes hold no `;` or `=` and start with neither `@` nor `(` |
| `AsmParser.ParseRenderedC` | projects/06/assembler.py:144-158 | Each assignment or jump the VM translator writes is read back as its own dest, comp and jump |
| `AsmParser.ParseRenderedA` | projects/06/assembler.py:132-142 | Each A-instruction and label the VM translator writes is read back as its own symbol |
| `AsmParser.IsNotInstruction` | projects/06/assembler.py:105-106 | A line is no instruction exactly when nothing stands before its first `//`: it is empty or starts with `//` |
| `AsmParser.Clean` | projects/06/assembler.py:112-116 | The line `get_next_instruction` keeps holds no `//` and neither starts nor ends with a space; it is empty exactly when `is_not_instruction` holds of the stripped line, so `has_more_commands` fails exactly on the lines `reset_file` skips |
| `AsmParser.FirstInstructionFound` | projects/06/assembler.py:94-100 | The line `reset_file` stops at, when there is one, is an instruction |
| `AsmParser.FirstInstructionIs` | projects/06/assembler.py:94-100 | `reset_file` stops at the first line that is an instruction once stripped, or at the end |
| `AsmParser.Following` | projects/06/assembler.py:108-116 | No instruction `get_next_instruction` lets through is empty |
| `AsmParser.Stream` | projects/06/assembler.py:94-130 | No instruction `advance` is given is empty |
| `AsmParser.StreamStopsAtBlank` | projects/06/assembler.py:108-116 | A line after the first instruction that cleans to the empty string ends the stream: the lines from it on are never read |
| `AsmParser.Parser.constructor` | projects/06/assembler.py:84-92 | Before a file is loaded nothing is pending, `instruction_num` is -1 and no command is set |
| `AsmParser.Parser.LoadFile` | projects/06/assembler.py:85-92 | Loads the lines; the pending instructions are the file's stream; `instruction_num` is -1 and the command fields are cleared |
| `AsmParser.Parser.ReadLine` | projects/06/assembler.py:96-98 | `readline().strip()`: the stripped line at the position, or `""` past the end; the position moves on unless at the end |
| `AsmParser.Parser.ResetFile` | projects/06/assembler.py:94-100 | The pending instructions are again the file's whole stream, and `instruction_num` is -1 |
| `AsmParser.Parser.HasMoreCommands` | projects/06/assembler.py:108-110 | True exactly when some instruction is pending |
| `AsmParser.Parser.GetNextInstruction` | projects/06/assembler.py:112-116 | The current instruction is the next line stripped, cut at `//` and stripped again |
| `AsmParser.Parser.Advance` | projects/06/assembler.py:118-130 | The command is the parse of the current instruction; `instruction_num` goes up exactly for an A- or C-command; the pending instructions lose their first |
| `HackCode.DestCode` | projects/06/assembler.py:162-176 | Three bits: A, D, M, each 1 exactly when the letter occurs in the mnemonic; 000 for no destination |
| `HackCode.DestCodeStandard` | projects/06/assembler.py:162-176 | Every destination of the Hack dest table gets its table bits, and the letters' order does not matter |
| `HackCode.DestOfTranslator` | projects/06/assembler.py:162-176 | The single destinations A, D and M get 100, 010 and 001 |
| `HackCode.CompTableBits` | projects/06/assembler.py:179-198 | Every entry of `comp_dict` is six binary digits |
| `HackCode.CompCode` | projects/06/assembler.py:178-204 | Seven binary digits, the first (the a-bit) 1 exactly when `M` occurs in the mnemonic |
| `HackCode.CompCodeBits` | projects/06/assembler.py:199-204 | The c-bits are `comp_dict`'s entry for the mnemonic with M read as A, or 000000 where it has none |
| `HackCode.CompOfTranslatorRegister` | projects/06/assembler.py:178-204 | 0, -1, A, D and M get the bits of the Hack specification |
| `HackCode.CompOfTranslatorAD` | projects/06/assembler.py:178-204 | D+A, D-A and D+1 get the bits of the Hack specification |
| `HackCode.CompOfTranslatorUnary` | projects/06/assembler.py:178-204 | M+1, M-1, -M and !M get the bits of the Hack specification |
| `HackCode.CompOfTranslatorBinary` | projects/06/assembler.py:178-204 | M-D and M&D get the bits of the Hack specification (M&D only by falling to 000000) |
| `HackCode.CompOfTranslatorSwapped` | projects/06/assembler.py:178-204 | M+D and M|D get the bits of D&M, which are not their own |
| `HackCode.CompOfTranslator` | projects/06/assembler.py:178-204 | Of the computations the VM translator writes, exactly those other than M+D and M|D get the bits of the Hack specification |
| `HackCode.JumpTable` | projects/06/assembler.py:207-215 | Every entry of `jump_dict` is three binary digits |
| `HackCode.JumpCode` | projects/06/assembler.py:206-216 | Three binary digits: the table's entry for a listed mnemonic, 000 for no jump or an unlisted one |
| `HackCode.JumpCodeDecodes` | projects/06/assembler.py:206-216 | Two listed jumps share bits exactly when they are the same mnemonic, and none has the bits of no jump |
| `HackCode.JumpOfTranslator` | projects/06/assembler.py:206-216 | The jumps the VM translator writes get the bits of the Hack specification |
| `HackAddresses.CreateAddressValue` | projects/06/assembler.py:50-53 | The result is binary and denotes the value; it has 15 digits exactly when the value is below 2^15, and more otherwise |
| `HackAddresses.CreateAddressUnique` | projects/06/assembler.py:50-53 | Every 15-digit binary string is the address of exactly one value below 2^15 |
| `HackAddresses.BaseTablePointers` | projects/06/assembler.py:235-244 | SP, LCL, ARG, THIS and THAT share the addresses of R0 to R4 |
| `HackAddresses.BaseTableRegisters0` | projects/06/assembler.py:240-241 | R0 and R1 are at addresses 0 and 1 |
| `HackAddresses.BaseTableRegisters2` | projects/06/assembler.py:242-243 | R2 and R3 are at addresses 2 and 3 |
| `HackAddresses.BaseTableRegisters4` | projects/06/assembler.py:244-245 | R4 and R5 are at addresses 4 and 5 |
| `HackAddresses.BaseTableRegisters6` | projects/06/assembler.py:246-247 | R6 and R7 are at addresses 6 and 7 |
| `HackAddresses.BaseTableRegisters8` | projects/06/assembler.py:248-249 | R8 and R9 are at addresses 8 and 9 |
| `HackAddresses.BaseTableRegisters10` | projects/06/assembler.py:250-251 | R10 and R11 are at addresses 10 and 11 |
| `HackAddresses.BaseTableRegisters12` | projects/06/assembler.py:252-253 | R12 and R13 are at addresses 12 and 13 |
| `HackAddresses.BaseTableRegisters14` | projects/06/assembler.py:254-255 | R14 and R15 are at addresses 14 and 15 |
| `HackAddresses.BaseTableScreen` | projects/06/assembler.py:256 | SCREEN is at 16384 |
| `HackAddresses.BaseTableKeyboard` | projects/06/assembler.py:257 | KBD is at 24576 |
| `HackAddresses.BaseTableMatches` | projects/06/assembler.py:233-258 | Every symbol of `base_table` is a predefined symbol, at `create_address` of its predefined value |
| `HackAddresses.BaseTableEntry` | projects/06/assembler.py:233-258 | The same for one symbol |
| `HackAddresses.BaseTableAddresses` | projects/06/assembler.py:233-258 | `base_table` lists exactly the predefined symbols of Hack assembly, each at a 15-digit address |
| `HackAddresses.BaseTableValues` | projects/06/assembler.py:233-258 | Every address of `base_table` is 15 binary digits, as its comment says |
| `SymbolTables.SymbolTable.constructor` | projects/06/assembler.py:220-222 | The table holds exactly `base_table`, and `ram_position` is 16 |
| `SymbolTables.SymbolTable.Contains` | projects/06/assembler.py:227-228 | True exactly when the symbol has an entry |
| `SymbolTables.SymbolTable.GetAddress` | projects/06/assembler.py:224-225 | The symbol's entry, for a symbol that has one |
| `SymbolTables.SymbolTable.AddEntry` | projects/06/assembler.py:230-231 | The symbol gets the address, replacing any it had; no other entry changes |
| `HackAssembler.FirstPass` | projects/06/assembler.py:25-29 | `instruction_num` advances by the number of A- and C-commands |
| `HackAssembler.LabelStep` | projects/06/assembler.py:26-29 | One turn of the first loop: `instruction_num` goes up exactly for an A- or C-command; a label gets `create_address(instruction_num + 1)`; an A- or C-command leaves the table as it was |
| `HackAssembler.FirstPassLabel` | projects/06/assembler.py:25-29 | A label whose last declaration is at position i gets the address of the A- or C-command after it: the count of commands before it, from `instruction_num` + 1 |
| `HackAssembler.LabelStepSets` | projects/06/assembler.py:73-75 | `write_L` gives its label `instruction_num` + 1 |
| `HackAssembler.LabelStepKeeps` | projects/06/assembler.py:26-29 | A step leaves every symbol it does not declare as it was |
| `HackAssembler.FirstPassKeeps` | projects/06/assembler.py:25-29 | The first pass leaves alone every symbol that no label declares, predefined ones included |
| `HackAssembler.FirstPassAddresses` | projects/06/assembler.py:25-29 | With fewer than 2^15 commands, every address in the table after the first pass has 15 digits |
| `HackAssembler.CWord` | projects/06/assembler.py:77-82 | 16 binary digits: 111, then the comp field (its a-bit 1 exactly when the comp names M), the dest field (bits for A, D, M) and the jump field (the table's bits for a known jump, 000 for none or an unknown one) |
| `HackAssembler.PassSnoc` | projects/06/assembler.py:26-39 | One more instruction is one more step of either pass |
| `HackAssembler.CodeStepEffect` | projects/06/assembler.py:34-39 | One step writes one line exactly for an A- or C-command. It either leaves the table and `ram_address` alone, or adds a new A-command symbol at `ram_address`, which then moves on by one |
| `HackAssembler.CodeStep` | projects/06/assembler.py:35-39 | One turn of the second loop appends one word exactly for an A- or C-command and nothing for a label, and `ram_address` moves on by at most one |
| `HackAssembler.CommandStep` | projects/06/assembler.py:36-39 | A label leaves everything as it was; a C-command appends `CWord` of its fields and keeps table and `ram_address`; an A-command is `write_A` |
| `HackAssembler.WriteAStep` | projects/06/assembler.py:58-71 | Appends one word. A decimal symbol writes its own address and changes nothing else. Any other symbol writes 0 and its table address; a new one gets `ram_address`, which moves on by one; a known one keeps `ram_address`. No entry already in the table changes, and only the symbol can be added |
| `HackAssembler.SecondPassKeeps` | projects/06/assembler.py:31-39 | The second pass appends one line per A- or C-command after what was there. It keeps every address the table had, and `ram_address` only grows |
| `HackAssembler.SecondPassCount` | projects/06/assembler.py:31-39 | The second pass adds as many symbols as `ram_address` moves on |
| `HackAssembler.SecondPassFresh` | projects/06/assembler.py:58-71 | Every variable the second pass adds gets a RAM address between the old and the new `ram_address`, and no two get the same one |
| `HackAssembler.CodeStepWords` | projects/06/assembler.py:58-82 | A step keeps every line a 16-digit word and every address 15 digits, when the constant and RAM fit in 15 bits |
| `HackAssembler.SecondPassWords` | projects/06/assembler.py:31-39 | The second pass writes only 16-digit binary words, when the addresses are 15 digits, the constants fit in 15 bits, and RAM does not run past 2^15 |
| `HackAssembler.AssembledWords` | projects/06/assembler.py:21-42 | A program of at most 2^15 - 16 instructions whose constants fit in 15 bits assembles to 16-digit binary words |
| `HackAssembler.TranslatorConstant` | projects/06/assembler.py:58-71 | `@n` from the VM translator is written as 0 and n's 15 digits, and changes neither the table nor `ram_address` |
| `HackAssembler.TranslatorStep` | projects/06/assembler.py:77-82 | An assignment or jump from the VM translator is written as `write_C`'s word for its text's fields, and nothing else changes |
| `HackAssembler.TranslatorWord` | projects/06/assembler.py:77-82 | Such a word is the Hack specification's word exactly when the computation is neither M+D nor M|D |
| `HackAssembler.Assembler.constructor` | projects/06/assembler.py:16-19 | Holds the given parser and symbol table, with no output and `ram_address` 16 |
| `HackAssembler.Assembler.Write` | projects/06/assembler.py:55-56 | Appends one line to the `.hack` file |
| `HackAssembler.Assembler.WriteA` | projects/06/assembler.py:58-71 | As `WriteAStep`: a decimal symbol is its own address, a known symbol the table's, any other the next RAM address, recorded in the table |
| `HackAssembler.Assembler.WriteL` | projects/06/assembler.py:73-75 | The label's entry becomes `instruction_num` + 1, replacing any it had |
| `HackAssembler.Assembler.WriteC` | projects/06/assembler.py:77-82 | Appends the C-word of the fields |
| `HackAssembler.Assembler.LabelPass` | projects/06/assembler.py:25-29 | The first loop leaves the table as `FirstPass` over the file's stream says |
| `HackAssembler.Assembler.AdvanceAndLabel` | projects/06/assembler.py:27-29 | One turn of the first loop is one `LabelStep` and consumes one pending instruction |
| `HackAssembler.Assembler.WriteCommand` | projects/06/assembler.py:36-39 | `write_A`, `write_C`, or nothing for a label, as `CommandStep` says |
| `HackAssembler.Assembler.CodePass` | projects/06/assembler.py:34-39 | The second loop leaves output, table and `ram_address` as `SecondPass` over the file's stream says |
| `HackAssembler.Assembler.AdvanceAndWrite` | projects/06/assembler.py:35-39 | One turn of the second loop is one `CodeStep` and consumes one pending instruction |
| `HackAssembler.Assembler.Assemble` | projects/06/assembler.py:21-42 | Output, table and `ram_address` end as `Assembly` of the file's lines says: the first pass from `instruction_num` -1, `reset_file`, then the second pass from `ram_address` 16 |
| `Text.DecimalRoundTrip` | projects/08/VMtranslator.py:244 | `int(str(n))` is n |
| `Text.NatToStringInjective` | projects/08/VMtranslator.py:218 | Different numbers have different decimal strings |
| `Text.SplitJoin` | projects/06/assembler.py:148-152 | Joining the parts of `split(c)` with c gives the string back |
| `Text.SplitCount` | projects/06/assembler.py:148-153 | `split(c)` makes one more part than there are separators |
| `Text.SplitLast` | projects/08/VMtranslator.py:127 | The last part of `(a + c + b).split(c)` is b, when b holds no c |
| `Text.RemoveAllSuffix` | projects/08/VMtranslator.py:127 | `replace(pat, '')` leaves a string without pat's first character as it is, and takes pat off its end |
| `Text.BinaryLength` | projects/06/assembler.py:51 | `'{0:b}'.format(n)` has at most k digits exactly when n is below 2^k |

## Left out

- File I/O is not modelled. A `.vm` or `.asm` file is a sequence of lines, and the `.asm` and `.hack` outputs are sequences of lines. Opening, `seek`, `close`, `close_asm` and the newline joining of the output are left out.
- The VM parser detects the end of a file when `tell()` stops moving. The model uses a line position that stops at the end of the list.
- `Main.parse_files`, `Assembler.prepare_files` (its `.asm` assertion and the output file name) and both `__main__` blocks are left out. They deal in paths and command lines.
- The `" // n"` line-number suffix that `CodeWriter.write` adds is not rendered. `line_count`, which numbers it, is modelled and proved.
- Both programs are read as working on Python 2 byte strings (`str`): `VMtranslator.py` needs Python 2 (`xrange`), and the assembler runs under either. So `strip` and `split` remove the six ASCII whitespace characters of `Text.IsSpace`. Python 3's `str` would also strip `\x1c` to `\x1f`, `\x85`, `\xa0` and the other Unicode spaces; the model does not.
- VmTranslator.IndexArg: models `int()` as a check for decimal digits (`Text.IsDecimal`). A VM token holds no spaces, so the difference is a sign: `push constant +5` and `push constant -1`, which Python 2's `int()` accepts, make the model report failure. Negative indices are not modelled.
- HackAssembler.WriteAStep, HackAssembler.Assembler.WriteA: model the `int()` test of `write_A` as the same decimal-digit check, and every other symbol takes the variable branch. So a signed or space-padded constant becomes a variable: for `@+5` and `@ 5` the model allocates a fresh RAM address where Python writes the constant 5, and for `@-1` it allocates one where Python writes a malformed word from `'{0:b}'.format(-1)`. Under Python 3.6 and later `int()` also accepts underscores (`@1_0`); the model treats those as variables too.
- `CodeWriter.raise_unknown` and the exceptions of `int()` are modelled as a false `ok` result that stops translation. A `TypeError` from `static` before any file is set is modelled the same way.
- `Parser.reset_file` loops forever on a file with no instruction line, because `readline` keeps returning `""`. The model stops at the end of the file with nothing pending.
- `xrange` in `write_function` is a loop of k rounds of D := 0 and push D.
- The `Code` object of the assembler keeps no state, so its methods are functions.
- The `Assembler` constructor also sets `ram_address` to 16, which Python's `__init__` does not. Nothing reads it before the second pass sets it again.
- `SymbolTable.ram_position` is set to 16 and never read. The model keeps the field.
- An empty instruction cannot reach `advance` or `command_type`, so their `IndexError` is excluded by a precondition. `has_more_commands` is false on an empty line, and the VM parser never yields an empty token list.
- `HackMachine` reads RAM cells never written as 0, and the machine's reading of a symbol is an environment parameter. The semantic lemmas assume that environment resolves the registers as the predefined symbols do (`VmSemantics.Registers`, `VmSemantics.NumberedRegisters`, both implied by `VmSemantics.PredefinedRegisters`) and the labels where the laid-out program puts them.
- `HackMachine` runs the translator's listing, not the assembled ROM: label declarations and comments take a step and a pc slot of their own, so pc values and label addresses are positions in the listing. The assembler gives labels ROM addresses that skip them, and the two numberings are not connected; the first pass's addresses are proved on their own (`HackAssembler.FirstPassLabel`).
- VmSemantics.RegisterTargets, VmSemantics.PushRegisterEffect, VmSemantics.PopRegisterEffect: hold for `pointer` below 13 and `temp` below 11; a larger index names R16 or above, which is not a predefined symbol but a variable the assembler allocates.
- VmSemantics.ComparisonEffect: gives the VM truth value only for `eq`, or for `gt` and `lt` without 16-bit overflow, because the generated code tests the wrapped difference.
- VmSemantics.PushEffect, VmSemantics.PopEffect, VmSemantics.ArithmeticEffect: hold only for a stack pointer in a range away from the registers and the top of memory.
- VmFrames.CallEffect, VmFrames.ReturnEffect: hold only for a stack at least 16 up and, for return, a proper frame (`VmFrames.ProperFrame`).
- VmFrames.CallReturn, VmFrames.CallReturnFrames: hold only for arguments that start at R16 or above, and for a callee that ends with LCL, ARG and the five saved cells as call left them; the callee's own code is not modelled.
- `projects/07` and `projects/10` are not part of this model.
