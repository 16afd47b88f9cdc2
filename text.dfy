/** The parts of Python's string API that the VM translator and the assembler
    rely on: strip, split, lower, replace, `in`, str(int) and the binary
    format, written over `string` (a sequence of characters). */
module Text {

  /** Python's str.isspace() on ASCII: space, tab, newline, carriage
      return, vertical tab and form feed. */
  predicate IsSpace(c: char) {
    c == ' ' || c == '\t' || c == '\n' || c == '\r' || c as int == 11 || c as int == 12
  }

  predicate IsDigit(c: char) { '0' <= c <= '9' }

  /** A non-empty string of decimal digits. */
  predicate IsDecimal(s: string) {
    |s| > 0 && forall i :: 0 <= i < |s| ==> IsDigit(s[i])
  }

  // ---------------------------------------------------------------- strip

  /** s.lstrip() */
  function TrimLeft(s: string): (r: string)
    ensures |r| <= |s|
  {
    if |s| > 0 && IsSpace(s[0]) then TrimLeft(s[1..]) else s
  }

  /** s.rstrip() */
  function TrimRight(s: string): (r: string)
    ensures |r| <= |s|
  {
    if |s| > 0 && IsSpace(s[|s| - 1]) then TrimRight(s[..|s| - 1]) else s
  }

  /** s.strip() */
  function Strip(s: string): string {
    TrimRight(TrimLeft(s))
  }

  lemma {:induction false} TrimRightKeepsFirst(s: string)
    requires |s| > 0 && !IsSpace(s[0])
    ensures |TrimRight(s)| > 0 && TrimRight(s)[0] == s[0]
  {
    if IsSpace(s[|s| - 1]) {
      TrimRightKeepsFirst(s[..|s| - 1]);
    }
  }

  lemma {:induction false} TrimLeftFirst(s: string)
    ensures |TrimLeft(s)| > 0 ==> !IsSpace(TrimLeft(s)[0])
  {
    if |s| > 0 && IsSpace(s[0]) {
      TrimLeftFirst(s[1..]);
    }
  }

  /** A stripped string does not start with a space. */
  lemma StripFirst(s: string)
    ensures |Strip(s)| > 0 ==> !IsSpace(Strip(s)[0])
  {
    TrimLeftFirst(s);
    if |TrimLeft(s)| > 0 {
      TrimRightKeepsFirst(TrimLeft(s));
    }
  }

  /** Stripping a string that starts with a non-space character keeps
      that character first. */
  lemma StripKeepsFirst(s: string)
    requires |s| > 0 && !IsSpace(s[0])
    ensures |Strip(s)| > 0 && Strip(s)[0] == s[0]
  {
    TrimRightKeepsFirst(s);
  }

  // ------------------------------------------------------- split() tokens

  /** The leading run of non-space characters of s. */
  function LeadingRun(s: string): (w: string)
    ensures |w| <= |s|
  {
    if |s| > 0 && !IsSpace(s[0]) then [s[0]] + LeadingRun(s[1..]) else []
  }

  /** s.split() with no argument: the maximal runs of non-space characters. */
  function Tokens(s: string): seq<string>
    decreases |s|
  {
    var t := TrimLeft(s);
    if t == [] then []
    else
      var w := LeadingRun(t);
      if w == [] then [] else [w] + Tokens(t[|w|..])
  }

  /** A string that starts with a non-space character has a first token,
      and that token starts with the same character. */
  lemma TokensStartAt(s: string)
    requires |s| > 0 && !IsSpace(s[0])
    ensures |Tokens(s)| > 0 && Tokens(s)[0][0] == s[0]
  {
  }

  // ------------------------------------------------------ '//' comments

  /** s.split('//')[0]: the text before the first "//". */
  function BeforeComment(s: string): (r: string)
    ensures |r| <= |s|
  {
    if |s| < 2 then s
    else if s[0] == '/' && s[1] == '/' then []
    else [s[0]] + BeforeComment(s[1..])
  }

  /** s holds no "//". */
  predicate NoComment(s: string) {
    forall i :: 0 <= i < |s| - 1 ==> !(s[i] == '/' && s[i + 1] == '/')
  }

  /** The text before the first "//" is a prefix that holds none, and it
      is empty exactly when s is empty or starts with "//". */
  lemma {:induction false} BeforeCommentPrefix(s: string)
    ensures var r := BeforeComment(s);
      r == s[..|r|] && NoComment(r) && (r == [] <==> s == [] || (|s| >= 2 && s[..2] == "//"))
    decreases |s|
  {
    if |s| >= 2 && !(s[0] == '/' && s[1] == '/') {
      BeforeCommentPrefix(s[1..]);
      var t := BeforeComment(s[1..]);
      assert BeforeComment(s) == [s[0]] + t;
      assert |t| > 0 ==> t[0] == s[1];
    }
  }

  /** lstrip keeps a suffix of s. */
  lemma {:induction false} TrimLeftSuffix(s: string)
    ensures TrimLeft(s) == s[|s| - |TrimLeft(s)|..]
    decreases |s|
  {
    if |s| > 0 && IsSpace(s[0]) {
      TrimLeftSuffix(s[1..]);
    }
  }

  /** rstrip keeps a prefix of s that does not end with a space. */
  lemma {:induction false} TrimRightPrefix(s: string)
    ensures var r := TrimRight(s); r == s[..|r|] && (|r| > 0 ==> !IsSpace(r[|r| - 1]))
    decreases |s|
  {
    if |s| > 0 && IsSpace(s[|s| - 1]) {
      TrimRightPrefix(s[..|s| - 1]);
    }
  }

  /** Stripping keeps a string free of "//", and the result neither
      starts nor ends with a space. */
  lemma StripSlice(s: string)
    requires NoComment(s)
    ensures var r := Strip(s);
      NoComment(r) && (|r| > 0 ==> !IsSpace(r[0]) && !IsSpace(r[|r| - 1]))
  {
    var l := TrimLeft(s);
    TrimLeftSuffix(s);
    TrimRightPrefix(l);
    StripFirst(s);
    var i := |s| - |l|;
    var r := Strip(s);
    assert forall k :: 0 <= k < |r| ==> r[k] == s[i + k];
  }

  // ------------------------------------------------------- split(c)

  /** The number of occurrences of c in s. */
  function Count(s: string, c: char): nat {
    if s == [] then 0 else (if s[0] == c then 1 else 0) + Count(s[1..], c)
  }

  /** Counting distributes over concatenation. */
  lemma {:induction false} CountAppend(a: string, b: string, c: char)
    ensures Count(a + b, c) == Count(a, c) + Count(b, c)
    decreases |a|
  {
    if a != [] {
      assert (a + b)[0] == a[0] && (a + b)[1..] == a[1..] + b;
      CountAppend(a[1..], b, c);
    } else {
      assert a + b == b;
    }
  }

  /** The index of the first c in s. */
  function IndexOf(s: string, c: char): (i: nat)
    requires c in s
    ensures i < |s| && s[i] == c && c !in s[..i]
  {
    if s[0] == c then 0 else 1 + IndexOf(s[1..], c)
  }

  /** s.split(c) for a single character c. */
  function Split(s: string, c: char): (parts: seq<string>)
    ensures |parts| >= 1
    ensures forall k :: 0 <= k < |parts| ==> c !in parts[k]
    decreases |s|
  {
    if c !in s then [s]
    else
      var i := IndexOf(s, c);
      [s[..i]] + Split(s[i + 1..], c)
  }

  /** "c".join(parts) */
  function Join(parts: seq<string>, c: char): string
    requires |parts| >= 1
  {
    if |parts| == 1 then parts[0] else parts[0] + [c] + Join(parts[1..], c)
  }

  lemma CountSplit(s: string, c: char)
    ensures Count(s, c) == (if c in s then Count(s[IndexOf(s, c) + 1..], c) + 1 else 0)
    decreases |s|
  {
    if s != [] && s[0] != c {
      CountSplit(s[1..], c);
    }
  }

  /** split(c) makes one more part than there are separators. */
  lemma {:induction false} SplitCount(s: string, c: char)
    ensures |Split(s, c)| == Count(s, c) + 1
    decreases |s|
  {
    CountSplit(s, c);
    if c in s {
      var i := IndexOf(s, c);
      assert Split(s, c) == [s[..i]] + Split(s[i + 1..], c);
      SplitCount(s[i + 1..], c);
    }
  }

  /** Joining the parts of split(c) with c gives the string back. */
  lemma {:induction false} SplitJoin(s: string, c: char)
    ensures Join(Split(s, c), c) == s
    decreases |s|
  {
    if c in s {
      var i := IndexOf(s, c);
      var rest := Split(s[i + 1..], c);
      var parts := [s[..i]] + rest;
      assert Split(s, c) == parts;
      assert parts[0] == s[..i] && parts[1..] == rest;
      assert Join(parts, c) == s[..i] + [c] + Join(rest, c);
      SplitJoin(s[i + 1..], c);
      assert s == s[..i] + [c] + s[i + 1..];
    }
  }

  /** A string with at most one c splits into itself, or into the parts
      before and after its c. */
  lemma SplitAtMostOnce(s: string, c: char)
    requires Count(s, c) <= 1
    ensures var parts := Split(s, c);
      (|parts| == 1 && parts[0] == s) || (|parts| == 2 && s == parts[0] + [c] + parts[1])
  {
    var parts := Split(s, c);
    SplitCount(s, c);
    SplitJoin(s, c);
    if |parts| == 2 {
      assert Join(parts[1..], c) == parts[1];
    }
  }

  /** The position of the first c, when the part before it holds none. */
  lemma IndexOfAfter(a: string, c: char, b: string)
    requires c !in a
    ensures c in a + [c] + b && IndexOf(a + [c] + b, c) == |a|
    decreases |a|
  {
    var s := a + [c] + b;
    assert s[|a|] == c;
    if a != [] {
      assert s[1..] == a[1..] + [c] + b;
      IndexOfAfter(a[1..], c, b);
    }
  }

  /** Splitting a + [c] + b on c, when neither part holds a c, gives the
      two parts. */
  lemma SplitOnce(a: string, c: char, b: string)
    requires c !in a && c !in b
    ensures Split(a + [c] + b, c) == [a, b]
  {
    var s := a + [c] + b;
    IndexOfAfter(a, c, b);
    assert s[..|a|] == a && s[|a| + 1..] == b;
  }

  /** The first c comes no later than any c. */
  lemma {:induction false} IndexOfAtMost(s: string, c: char, k: nat)
    requires k < |s| && s[k] == c
    ensures c in s && IndexOf(s, c) <= k
    decreases k
  {
    if s[0] != c {
      IndexOfAtMost(s[1..], c, k - 1);
    }
  }

  /** The last part of a + [c] + b split on c is b, when b holds no c. */
  lemma {:induction false} SplitLast(a: string, c: char, b: string)
    requires c !in b
    ensures var parts := Split(a + [c] + b, c); parts[|parts| - 1] == b
    decreases |a|
  {
    var s := a + [c] + b;
    IndexOfAtMost(s, c, |a|);
    var i := IndexOf(s, c);
    var rest := Split(s[i + 1..], c);
    assert Split(s, c) == [s[..i]] + rest;
    if i == |a| {
      assert s[i + 1..] == b;
    } else {
      assert s[i + 1..] == a[i + 1..] + [c] + b;
      SplitLast(a[i + 1..], c, b);
    }
  }

  // ------------------------------------------------------ replace, lower

  /** s.replace(a, b) for single characters. */
  function ReplaceChar(s: string, a: char, b: char): (r: string)
    ensures |r| == |s|
    ensures forall i :: 0 <= i < |s| ==> r[i] == (if s[i] == a then b else s[i])
  {
    if s == [] then [] else [if s[0] == a then b else s[0]] + ReplaceChar(s[1..], a, b)
  }

  /** s.replace(pat, ''): every leftmost, non-overlapping occurrence of pat removed. */
  function RemoveAll(s: string, pat: string): string
    requires |pat| > 0
    decreases |s|
  {
    if |s| < |pat| then s
    else if s[..|pat|] == pat then RemoveAll(s[|pat|..], pat)
    else [s[0]] + RemoveAll(s[1..], pat)
  }

  /** Nothing is removed from a string without the first character of
      pat, and from such a string followed by pat, just pat. */
  lemma {:induction false} RemoveAllSuffix(s: string, pat: string)
    requires |pat| > 0 && pat[0] !in s
    ensures RemoveAll(s, pat) == s
    ensures RemoveAll(s + pat, pat) == s
    decreases |s|
  {
    var t := s + pat;
    if s == [] {
      assert t[..|pat|] == pat && t[|pat|..] == [];
    } else {
      assert t[..|pat|][0] == s[0] != pat[0];
      assert t[1..] == s[1..] + pat;
      RemoveAllSuffix(s[1..], pat);
      if |pat| <= |s| {
        assert s[..|pat|][0] != pat[0];
      }
      assert s == [s[0]] + s[1..];
    }
  }

  /** ASCII lower case of one character. */
  function LowerChar(c: char): char {
    if 'A' <= c <= 'Z' then (c as int + 32) as char else c
  }

  /** s.lower() on ASCII letters. */
  function Lower(s: string): (r: string)
    ensures |r| == |s| && forall i :: 0 <= i < |s| ==> r[i] == LowerChar(s[i])
  {
    if s == [] then [] else [LowerChar(s[0])] + Lower(s[1..])
  }

  // ------------------------------------------------------ str(n)

  function DigitChar(d: nat): (c: char)
    requires d < 10
    ensures IsDigit(c)
  {
    (48 + d) as char
  }

  function DigitValue(c: char): (d: nat)
    requires IsDigit(c)
    ensures d < 10
  {
    c as int - 48
  }

  /** str(n) for a non-negative n: its decimal digits, without leading zeros. */
  function NatToString(n: nat): (s: string)
    ensures IsDecimal(s)
    ensures s[0] == '0' ==> n == 0 && s == "0"
  {
    if n < 10 then [DigitChar(n)] else NatToString(n / 10) + [DigitChar(n % 10)]
  }

  /** int(s) for a string of decimal digits. */
  function DecimalValue(s: string): nat
    requires forall i :: 0 <= i < |s| ==> IsDigit(s[i])
  {
    if s == [] then 0 else 10 * DecimalValue(s[..|s| - 1]) + DigitValue(s[|s| - 1])
  }

  /** int(str(n)) == n */
  lemma {:induction false} DecimalRoundTrip(n: nat)
    ensures DecimalValue(NatToString(n)) == n
  {
    if n >= 10 {
      DecimalRoundTrip(n / 10);
      var s := NatToString(n);
      assert s[..|s| - 1] == NatToString(n / 10);
    }
  }

  /** Different numbers have different decimal strings. */
  lemma NatToStringInjective(m: nat, n: nat)
    requires NatToString(m) == NatToString(n)
    ensures m == n
  {
    DecimalRoundTrip(m);
    DecimalRoundTrip(n);
  }

  // ------------------------------------------------------ '{0:b}'.format(n)

  function BitChar(b: nat): char
    requires b < 2
  {
    if b == 0 then '0' else '1'
  }

  predicate IsBinary(s: string) {
    forall i :: 0 <= i < |s| ==> s[i] == '0' || s[i] == '1'
  }

  /** '{0:b}'.format(n): binary digits of n without leading zeros ("0" for 0). */
  function Binary(n: nat): (s: string)
    ensures |s| > 0 && IsBinary(s)
  {
    if n < 2 then [BitChar(n)] else Binary(n / 2) + [BitChar(n % 2)]
  }

  /** The number a string of binary digits denotes. */
  function BinaryValue(s: string): nat
    requires IsBinary(s)
  {
    if s == [] then 0 else 2 * BinaryValue(s[..|s| - 1]) + (if s[|s| - 1] == '1' then 1 else 0)
  }

  function Pow2(k: nat): (p: nat)
    ensures p >= 1
  {
    if k == 0 then 1 else 2 * Pow2(k - 1)
  }

  /** k copies of c. */
  function Repeat(c: char, k: int): (r: string)
    ensures |r| == (if k < 0 then 0 else k)
    ensures forall i :: 0 <= i < |r| ==> r[i] == c
  {
    if k <= 0 then [] else [c] + Repeat(c, k - 1)
  }

  lemma {:induction false} BinaryValueOfBinary(n: nat)
    ensures BinaryValue(Binary(n)) == n
  {
    if n >= 2 {
      BinaryValueOfBinary(n / 2);
      var s := Binary(n);
      assert s[..|s| - 1] == Binary(n / 2);
    }
  }

  /** Binary(n) has at most k digits exactly when n < 2^k (for k >= 1). */
  lemma {:induction false} BinaryLength(n: nat, k: nat)
    requires k >= 1
    ensures |Binary(n)| <= k <==> n < Pow2(k)
  {
    if n >= 2 && k >= 2 {
      BinaryLength(n / 2, k - 1);
    } else if n >= 2 {
      assert |Binary(n)| >= 2 by {
        assert Binary(n) == Binary(n / 2) + [BitChar(n % 2)];
      }
    }
  }

  /** Leading zeros do not change the value of a binary string. */
  lemma {:induction false} BinaryValueZeros(k: nat, s: string)
    requires IsBinary(s)
    ensures IsBinary(Repeat('0', k) + s) && BinaryValue(Repeat('0', k) + s) == BinaryValue(s)
    decreases |s|
  {
    var z := Repeat('0', k);
    if s == [] {
      assert z + s == z;
      ZerosValue(k);
    } else {
      var t := s[..|s| - 1];
      assert (z + s)[..|z + s| - 1] == z + t;
      BinaryValueZeros(k, t);
    }
  }

  lemma {:induction false} ZerosValue(k: nat)
    ensures IsBinary(Repeat('0', k)) && BinaryValue(Repeat('0', k)) == 0
  {
    if k > 0 {
      var z := Repeat('0', k);
      assert z[..|z| - 1] == Repeat('0', k - 1);
      ZerosValue(k - 1);
    }
  }

  /** The value of a string of k binary digits is below 2^k. */
  lemma {:induction false} BinaryValueBound(s: string)
    requires IsBinary(s)
    ensures BinaryValue(s) < Pow2(|s|)
  {
    if s != [] {
      BinaryValueBound(s[..|s| - 1]);
    }
  }

  /** Two binary strings of one length with one value are the same string. */
  lemma {:induction false} BinaryUnique(s: string, t: string)
    requires IsBinary(s) && IsBinary(t) && |s| == |t|
    requires BinaryValue(s) == BinaryValue(t)
    ensures s == t
  {
    if s != [] {
      var n := |s|;
      assert IsBinary(s[..n - 1]) && IsBinary(t[..n - 1]);
      BinaryUnique(s[..n - 1], t[..n - 1]);
      assert s == s[..n - 1] + [s[n - 1]] && t == t[..n - 1] + [t[n - 1]];
    }
  }

  /** k copies of c, then one more, are k + 1 copies. */
  lemma {:induction false} RepeatSnoc(c: char, k: nat)
    ensures Repeat(c, k) + [c] == Repeat(c, k + 1)
  {
    if k > 0 {
      RepeatSnoc(c, k - 1);
      assert Repeat(c, k) + [c] == [c] + (Repeat(c, k - 1) + [c]);
    }
  }

  /** Multiplying by 2^k appends k zeros to the binary digits. */
  lemma {:induction false} BinaryShift(m: nat, k: nat)
    requires m >= 1
    ensures Binary(m * Pow2(k)) == Binary(m) + Repeat('0', k)
  {
    if k > 0 {
      var x := m * Pow2(k - 1);
      assert m * Pow2(k) == 2 * x;
      assert x >= 1;
      BinaryShift(m, k - 1);
      assert Binary(2 * x) == Binary(x) + [BitChar(0)];
      RepeatSnoc('0', k - 1);
      AppendAssocChars(Binary(m), Repeat('0', k - 1), ['0']);
    } else {
      assert Binary(m) + Repeat('0', 0) == Binary(m);
    }
  }

  lemma AppendAssocChars(a: string, b: string, c: string)
    ensures a + b + c == a + (b + c)
  {
  }
}
