/** The labels the CodeWriter invents (projects/08/VMtranslator.py):
    BOOLk and ENDBOOLk for the k-th comparison, f + "RET" + c for the c-th
    call, and file$label for the labels of a VM file. Each kind is told
    apart from the others, and no two of one kind coincide, so that the
    jumps of the generated code each have one target. */
module VmLabels {
  import opened Wrappers
  import opened Text
  import opened VmWriter

  /** Decimal digits are neither letters nor '$'. */
  lemma DecimalHasNo(s: string, c: char)
    requires IsDecimal(s) && !IsDigit(c)
    ensures c !in s
  {
  }

  /** A common prefix can be taken off both sides of an equation. */
  lemma PrefixCancel(p: string, x: string, y: string)
    requires p + x == p + y
    ensures x == y
  {
    assert x == (p + x)[|p|..];
    assert y == (p + y)[|p|..];
  }

  /** BOOLj and BOOLk coincide only when j and k do; the same for
      ENDBOOL; and a BOOL label is never an ENDBOOL label. */
  lemma BoolLabels(j: nat, k: nat)
    ensures BoolLabel(j) == BoolLabel(k) <==> j == k
    ensures EndBoolLabel(j) == EndBoolLabel(k) <==> j == k
    ensures BoolLabel(j) != EndBoolLabel(k)
  {
    if BoolLabel(j) == BoolLabel(k) {
      PrefixCancel("BOOL", NatToString(j), NatToString(k));
      NatToStringInjective(j, k);
    }
    if EndBoolLabel(j) == EndBoolLabel(k) {
      PrefixCancel("ENDBOOL", NatToString(j), NatToString(k));
      NatToStringInjective(j, k);
    }
    assert BoolLabel(j)[0] == 'B' && EndBoolLabel(k)[0] == 'E';
  }

  /** When a + [x] + b equals a' + [x] + b' and b' is the longer, the x of
      the left side falls inside b'. */
  lemma LongerSuffixHolds(a1: string, b1: string, a2: string, b2: string, x: char)
    requires a1 + [x] + b1 == a2 + [x] + b2
    ensures |b1| < |b2| ==> x in b2
  {
    if |b1| < |b2| {
      assert (a1 + [x] + b1)[|a1|] == x;
      assert (a2 + [x] + b2)[|a1|] == b2[|a1| - |a2| - 1];
    }
  }

  /** The last occurrence of a separator splits a sequence in one way
      only: a + [x] + b, with no x in b, determines a and b. */
  lemma LastSeparator(a1: string, b1: string, a2: string, b2: string, x: char)
    requires a1 + [x] + b1 == a2 + [x] + b2
    requires x !in b1 && x !in b2
    ensures a1 == a2 && b1 == b2
  {
    LongerSuffixHolds(a1, b1, a2, b2, x);
    LongerSuffixHolds(a2, b2, a1, b1, x);
    var s := a1 + [x] + b1;
    assert a1 == s[..|a1|] && a2 == (a2 + [x] + b2)[..|a2|];
    assert b1 == s[|a1| + 1..] && b2 == (a2 + [x] + b2)[|a2| + 1..];
  }

  /** A return label determines both the function called and the call's
      number: the return sites of two calls never coincide unless the
      calls are one, whatever the functions are named. */
  lemma RetLabelInjective(f1: string, c1: nat, f2: string, c2: nat)
    ensures RetLabel(f1, c1) == RetLabel(f2, c2) <==> f1 == f2 && c1 == c2
  {
    if RetLabel(f1, c1) == RetLabel(f2, c2) {
      var d1, d2 := NatToString(c1), NatToString(c2);
      DecimalHasNo(d1, 'T');
      DecimalHasNo(d2, 'T');
      assert RetLabel(f1, c1) == (f1 + "RE") + ['T'] + d1;
      assert RetLabel(f2, c2) == (f2 + "RE") + ['T'] + d2;
      LastSeparator(f1 + "RE", d1, f2 + "RE", d2, 'T');
      assert f1 == (f1 + "RE")[..|f1|] && f2 == (f2 + "RE")[..|f2|];
      NatToStringInjective(c1, c2);
    }
  }

  /** file$label, for a file name without '$', determines both the file
      and the label: labels of two files, or two labels of one file, never
      coincide. */
  lemma NamespacedLabelInjective(f1: Option<string>, t1: Option<string>, f2: Option<string>, t2: Option<string>)
    requires '$' !in FileText(f1) && '$' !in FileText(f2)
    ensures NamespacedLabel(f1, t1) == NamespacedLabel(f2, t2)
        <==> FileText(f1) == FileText(f2) && FileText(t1) == FileText(t2)
  {
    var a1, b1 := FileText(f1), FileText(t1);
    var a2, b2 := FileText(f2), FileText(t2);
    if NamespacedLabel(f1, t1) == NamespacedLabel(f2, t2) {
      var s := NamespacedLabel(f1, t1);
      assert s == a1 + ['$'] + b1 && s == a2 + ['$'] + b2;
      IndexOfAfter(a1, '$', b1);
      IndexOfAfter(a2, '$', b2);
      assert a1 == s[..|a1|] && a2 == s[..|a2|];
      assert b1 == s[|a1| + 1..] && b2 == s[|a2| + 1..];
    }
  }

  /** A file's labels are never the labels of comparisons or of return
      sites, when function names hold no '$'. */
  lemma NamespacedLabelFresh(file: Option<string>, target: Option<string>, f: string, c: nat, k: nat)
    requires '$' !in f
    ensures NamespacedLabel(file, target) != BoolLabel(k)
    ensures NamespacedLabel(file, target) != EndBoolLabel(k)
    ensures NamespacedLabel(file, target) != RetLabel(f, c)
  {
    var l := NamespacedLabel(file, target);
    assert l[|FileText(file)|] == '$';
    DecimalHasNo(NatToString(k), '$');
    DecimalHasNo(NatToString(c), '$');
    assert '$' !in BoolLabel(k) by {
      assert BoolLabel(k) == "BOOL" + NatToString(k);
    }
    assert '$' !in EndBoolLabel(k) by {
      assert EndBoolLabel(k) == "ENDBOOL" + NatToString(k);
    }
    assert '$' !in RetLabel(f, c) by {
      assert RetLabel(f, c) == f + "RET" + NatToString(c);
    }
  }
}
