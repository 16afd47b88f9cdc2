/** The numbering of the labels a translation run invents
    (projects/08/VMtranslator.py): bool_count and call_count belong to the
    one CodeWriter Main shares across all files, so the comparisons of a
    run are numbered 0, 1, 2, ... in the order they are met, and the calls
    1, 2, 3, ... after the bootstrap's call of Sys.init, which is call 0.
    Two comparisons of a run therefore write different BOOL and ENDBOOL
    labels, and two calls different return labels, whatever the functions
    are named. */
module VmRunLabels {
  import opened Wrappers
  import opened Text
  import opened Hack
  import opened VmParser
  import opened VmWriter
  import opened VmLabels
  import opened VmTranslator

  // ------------------------------------------------------ one file

  /** Counting comparisons and calls distributes over concatenation. */
  lemma {:induction false} CountsAppend(a: seq<seq<string>>, b: seq<seq<string>>)
    ensures Comparisons(a + b) == Comparisons(a) + Comparisons(b)
    ensures Calls(a + b) == Calls(a) + Calls(b)
    decreases |a|
  {
    if a == [] {
      assert a + b == b;
    } else {
      assert (a + b)[0] == a[0] && (a + b)[1..] == a[1..] + b;
      CountsAppend(a[1..], b);
    }
  }

  /** An instruction translated after the instructions a, which raised
      nothing, starts from bool_count and call_count advanced by the
      comparisons and calls of a, and its lines stand in the file's code
      right after those of a. */
  lemma InstructionCounters(a: seq<seq<string>>, t: seq<string>, b: seq<seq<string>>, file: Option<string>, k: nat, c: nat)
    requires Translation(a, file, k, c).ok
    ensures var ra := Translation(a, file, k, c);
      ra.bools == k + Comparisons(a) && ra.calls == c + Calls(a)
      && var s := InstructionCode(t, file, ra.bools, ra.calls);
      var r := Translation(a + [t] + b, file, k, c);
      |ra.code| + |s.code| <= |r.code| && r.code[|ra.code|..|ra.code| + |s.code|] == s.code
  {
    TranslationCounts(a, file, k, c);
    var ra := Translation(a, file, k, c);
    var s := InstructionCode(t, file, ra.bools, ra.calls);
    TranslationSnoc(a, t, file, k, c);
    var rp := Translation(a + [t], file, k, c);
    assert rp.code == ra.code + s.code;
    TranslationAppend(a + [t], b, file, k, c);
    var r := Translation(a + [t] + b, file, k, c);
    assert r.code[..|rp.code|] == rp.code;
  }

  /** A comparison numbered k writes the labels BOOLk and ENDBOOLk. */
  lemma ComparisonCodeLabels(tokens: seq<string>, file: Option<string>, k: nat, c: nat)
    requires IsComparisonCommand(tokens)
    ensures var r := CommandCode(tokens, file, k, c);
      r.ok && Label(BoolLabel(k)) in r.code && Label(EndBoolLabel(k)) in r.code
  {
    var o := OperatorOf(tokens[0]).value;
    var cmp := CompareCode(CompareCond(o), k);
    assert OperatorCode(o, k) == cmp;
    assert cmp[|cmp| - 1] == Label(EndBoolLabel(k));
    var b := 3 + |SetAToStack()| + 3;
    assert cmp[b] == Label(BoolLabel(k));
    var code := ArithmeticPrefix(Some(o)) + cmp + IncSP();
    assert code == ArithmeticCode(tokens[0], k);
    assert code[|ArithmeticPrefix(Some(o))| + b] == Label(BoolLabel(k));
    assert code[|ArithmeticPrefix(Some(o))| + |cmp| - 1] == Label(EndBoolLabel(k));
  }

  /** A call numbered c of the function f writes the return label fRETc. */
  lemma CallCodeLabel(tokens: seq<string>, file: Option<string>, k: nat, c: nat)
    requires IsCallCommand(tokens)
    ensures var r := CommandCode(tokens, file, k, c);
      r.ok ==> |tokens| >= 2 && Label(RetLabel(tokens[1], c)) in r.code
  {
    var r := CommandCode(tokens, file, k, c);
    if r.ok {
      var n := IndexArg(Arg2(tokens)).value;
      var code := CallCode(tokens[1], n, c);
      assert r.code == code;
      assert code[|code| - 1] == Label(RetLabel(tokens[1], c));
    }
  }

  /** Within a file, a comparison gets a smaller number than every later
      instruction sees, so its labels are not those of a later comparison. */
  lemma ComparisonNumbers(instrs: seq<seq<string>>, i: nat, j: nat, k: nat)
    requires i < j <= |instrs| && IsComparisonCommand(instrs[i])
    ensures Comparisons(instrs[..i]) < Comparisons(instrs[..j])
    ensures BoolLabel(k + Comparisons(instrs[..i])) != BoolLabel(k + Comparisons(instrs[..j]))
    ensures EndBoolLabel(k + Comparisons(instrs[..i])) != EndBoolLabel(k + Comparisons(instrs[..j]))
  {
    assert instrs[..j] == instrs[..i] + ([instrs[i]] + instrs[i + 1..j]);
    CountsAppend(instrs[..i], [instrs[i]] + instrs[i + 1..j]);
    assert ([instrs[i]] + instrs[i + 1..j])[1..] == instrs[i + 1..j];
    BoolLabels(k + Comparisons(instrs[..i]), k + Comparisons(instrs[..j]));
  }

  /** Within a file, a call gets a smaller number than every later
      instruction sees, so its return label is not that of a later call,
      of this or of any other function. */
  lemma CallNumbers(instrs: seq<seq<string>>, i: nat, j: nat, c: nat, f: string, g: string)
    requires i < j <= |instrs| && IsCallCommand(instrs[i])
    ensures Calls(instrs[..i]) < Calls(instrs[..j])
    ensures RetLabel(f, c + Calls(instrs[..i])) != RetLabel(g, c + Calls(instrs[..j]))
  {
    assert instrs[..j] == instrs[..i] + ([instrs[i]] + instrs[i + 1..j]);
    CountsAppend(instrs[..i], [instrs[i]] + instrs[i + 1..j]);
    assert ([instrs[i]] + instrs[i + 1..j])[1..] == instrs[i + 1..j];
    RetLabelInjective(f, c + Calls(instrs[..i]), g, c + Calls(instrs[..j]));
  }

  // ------------------------------------------------------ the whole run

  /** The comparisons among the instructions of the files. */
  function FileComparisons(files: seq<VmFile>): nat {
    if files == [] then 0 else Comparisons(Instructions(files[0].lines)) + FileComparisons(files[1..])
  }

  /** The calls among the instructions of the files. */
  function FileCalls(files: seq<VmFile>): nat {
    if files == [] then 0 else Calls(Instructions(files[0].lines)) + FileCalls(files[1..])
  }

  /** Counting over files distributes over concatenation. */
  lemma {:induction false} FileCountsAppend(a: seq<VmFile>, b: seq<VmFile>)
    ensures FileComparisons(a + b) == FileComparisons(a) + FileComparisons(b)
    ensures FileCalls(a + b) == FileCalls(a) + FileCalls(b)
    decreases |a|
  {
    if a == [] {
      assert a + b == b;
    } else {
      assert (a + b)[0] == a[0] && (a + b)[1..] == a[1..] + b;
      FileCountsAppend(a[1..], b);
    }
  }

  /** Translating files without error advances bool_count and call_count
      by the comparisons and calls of all of them. */
  lemma {:induction false} ProgramCounts(files: seq<VmFile>, k: nat, c: nat)
    ensures var r := ProgramTranslation(files, k, c);
      r.ok ==> r.bools == k + FileComparisons(files) && r.calls == c + FileCalls(files)
    decreases |files|
  {
    if files != [] {
      var f := files[0];
      var s := FileTranslation(f, k, c);
      TranslationCounts(Instructions(f.lines), Some(ModuleName(f.path)), k, c);
      if s.ok {
        ProgramCounts(files[1..], s.bools, s.calls);
      }
    }
  }

  /** A file translated after the files a, which raised nothing, starts
      from bool_count and call_count advanced by the comparisons and calls
      of a, and its lines stand in the program's code right after those
      of a. */
  lemma FileCounters(a: seq<VmFile>, f: VmFile, b: seq<VmFile>, k: nat, c: nat)
    requires ProgramTranslation(a, k, c).ok
    ensures var ra := ProgramTranslation(a, k, c);
      ra.bools == k + FileComparisons(a) && ra.calls == c + FileCalls(a)
      && var s := FileTranslation(f, ra.bools, ra.calls);
      var r := ProgramTranslation(a + [f] + b, k, c);
      |ra.code| + |s.code| <= |r.code| && r.code[|ra.code|..|ra.code| + |s.code|] == s.code
  {
    ProgramCounts(a, k, c);
    var ra := ProgramTranslation(a, k, c);
    var s := FileTranslation(f, ra.bools, ra.calls);
    ProgramSnoc(a, f, k, c);
    var rp := ProgramTranslation(a + [f], k, c);
    assert rp.code == ra.code + s.code;
    ProgramAppend(a + [f], b, k, c);
    var r := ProgramTranslation(a + [f] + b, k, c);
    assert r.code[..|rp.code|] == rp.code;
  }

  /** The number bool_count, counted from k, holds when the p-th
      instruction of the i-th file is reached. */
  function ComparisonNumber(files: seq<VmFile>, i: nat, p: nat, k: nat): nat
    requires i < |files| && p <= |Instructions(files[i].lines)|
  {
    k + FileComparisons(files[..i]) + Comparisons(Instructions(files[i].lines)[..p])
  }

  /** The number call_count, counted from c, holds when the p-th
      instruction of the i-th file is reached. */
  function CallNumber(files: seq<VmFile>, i: nat, p: nat, c: nat): nat
    requires i < |files| && p <= |Instructions(files[i].lines)|
  {
    c + FileCalls(files[..i]) + Calls(Instructions(files[i].lines)[..p])
  }

  /** The p-th instruction of the i-th file, once everything before it
      was translated without error, is translated with bool_count and
      call_count at its numbers. */
  lemma ProgramInstructionCounters(files: seq<VmFile>, i: nat, p: nat, k: nat, c: nat)
    requires i < |files| && p < |Instructions(files[i].lines)|
    ensures var ra := ProgramTranslation(files[..i], k, c);
      var t := Translation(Instructions(files[i].lines)[..p], Some(ModuleName(files[i].path)), ra.bools, ra.calls);
      ra.ok && t.ok ==> t.bools == ComparisonNumber(files, i, p, k) && t.calls == CallNumber(files, i, p, c)
  {
    var ra := ProgramTranslation(files[..i], k, c);
    ProgramCounts(files[..i], k, c);
    TranslationCounts(Instructions(files[i].lines)[..p], Some(ModuleName(files[i].path)), ra.bools, ra.calls);
  }

  /** The files before file j hold those before file i, file i itself and
      the files between. */
  lemma FilesBetween(files: seq<VmFile>, i: nat, j: nat)
    requires i < j <= |files|
    ensures FileComparisons(files[..j]) >= FileComparisons(files[..i]) + Comparisons(Instructions(files[i].lines))
    ensures FileCalls(files[..j]) >= FileCalls(files[..i]) + Calls(Instructions(files[i].lines))
  {
    assert files[..j] == files[..i] + ([files[i]] + files[i + 1..j]);
    FileCountsAppend(files[..i], [files[i]] + files[i + 1..j]);
    assert ([files[i]] + files[i + 1..j])[1..] == files[i + 1..j];
  }

  /** Across a whole run, a comparison's number is smaller than the number
      every later instruction sees, in its file or a later one: two
      comparisons of a run never share a BOOL or an ENDBOOL label. */
  lemma ProgramComparisonNumbers(files: seq<VmFile>, i: nat, p: nat, j: nat, q: nat, k: nat)
    requires i <= j < |files|
    requires p < |Instructions(files[i].lines)| && q <= |Instructions(files[j].lines)|
    requires i == j ==> p < q
    requires IsComparisonCommand(Instructions(files[i].lines)[p])
    ensures ComparisonNumber(files, i, p, k) < ComparisonNumber(files, j, q, k)
    ensures BoolLabel(ComparisonNumber(files, i, p, k)) != BoolLabel(ComparisonNumber(files, j, q, k))
    ensures EndBoolLabel(ComparisonNumber(files, i, p, k)) != EndBoolLabel(ComparisonNumber(files, j, q, k))
  {
    var instrs := Instructions(files[i].lines);
    if i == j {
      ComparisonNumbers(instrs, p, q, k);
    } else {
      ComparisonNumbers(instrs, p, |instrs|, k);
      assert instrs[..|instrs|] == instrs;
      FilesBetween(files, i, j);
    }
    BoolLabels(ComparisonNumber(files, i, p, k), ComparisonNumber(files, j, q, k));
  }

  /** Across a whole run, a call's number is smaller than the number every
      later instruction sees: two calls of a run never share a return
      label, whatever functions they call. */
  lemma ProgramCallNumbers(files: seq<VmFile>, i: nat, p: nat, j: nat, q: nat, c: nat, f: string, g: string)
    requires i <= j < |files|
    requires p < |Instructions(files[i].lines)| && q <= |Instructions(files[j].lines)|
    requires i == j ==> p < q
    requires IsCallCommand(Instructions(files[i].lines)[p])
    ensures CallNumber(files, i, p, c) < CallNumber(files, j, q, c)
    ensures RetLabel(f, CallNumber(files, i, p, c)) != RetLabel(g, CallNumber(files, j, q, c))
  {
    var instrs := Instructions(files[i].lines);
    if i == j {
      CallNumbers(instrs, p, q, c, f, g);
    } else {
      CallNumbers(instrs, p, |instrs|, c, f, g);
      assert instrs[..|instrs|] == instrs;
      FilesBetween(files, i, j);
    }
    RetLabelInjective(f, CallNumber(files, i, p, c), g, CallNumber(files, j, q, c));
  }

  /** The bootstrap calls Sys.init as call 0 and the files' calls are
      numbered from 1, so no call of the files returns to the bootstrap's
      return label. */
  lemma BootstrapLabelFresh(files: seq<VmFile>, j: nat, q: nat, g: string)
    requires j < |files| && q <= |Instructions(files[j].lines)|
    ensures RetLabel("Sys.init", 0) != RetLabel(g, CallNumber(files, j, q, 1))
  {
    RetLabelInjective("Sys.init", 0, g, CallNumber(files, j, q, 1));
  }
}
