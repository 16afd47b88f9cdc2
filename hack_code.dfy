/** The Code module of the Hack assembler (projects/06/assembler.py): the
    bit fields of a C-instruction for its dest, comp and jump mnemonics.
    The tables of chapter 4 of "The Elements of Computing Systems" are
    written out beside them as the reference they are checked against. */
module HackCode {
  import opened Wrappers
  import opened Text
  import opened Hack

  function Bit(b: bool): char {
    if b then '1' else '0'
  }

  // ------------------------------------------------------------------ dest

  /** Code.dest: one bit for each of A, D and M that occurs in the
      mnemonic, in that order; no destination is 000. */
  function DestCode(mnemonic: Option<string>): (r: string)
    ensures |r| == 3 && IsBinary(r)
    ensures mnemonic.None? ==> r == "000"
    ensures r[0] == '1' <==> mnemonic.Some? && 'A' in mnemonic.value
    ensures r[1] == '1' <==> mnemonic.Some? && 'D' in mnemonic.value
    ensures r[2] == '1' <==> mnemonic.Some? && 'M' in mnemonic.value
  {
    if mnemonic.None? then "000"
    else
      var m := mnemonic.value;
      [Bit('A' in m), Bit('D' in m), Bit('M' in m)]
  }

  /** The dest table of the Hack specification. */
  function HackDests(): map<string, string> {
    map["M" := "001", "D" := "010", "MD" := "011", "A" := "100",
        "AM" := "101", "AD" := "110", "AMD" := "111"]
  }

  /** Code.dest agrees with the specification on every destination it
      lists, and on the written order of the letters not at all: "DM" is
      "MD". */
  lemma DestCodeStandard()
    ensures forall m :: m in HackDests() ==> DestCode(Some(m)) == HackDests()[m]
    ensures DestCode(Some("DM")) == DestCode(Some("MD"))
  {
    assert 'A' in "A" && 'A' in "AM" && 'M' in "AM" && 'A' in "AD" && 'D' in "AD";
    assert 'A' in "AMD" && 'M' in "AMD" && 'D' in "AMD" && 'M' in "MD" && 'D' in "MD";
    assert 'M' in "DM" && 'D' in "DM";
  }

  /** The single destinations the VM translator writes get the one bit of
      their register. */
  lemma DestOfTranslator(d: Dest)
    ensures DestCode(Some(DestText(d))) == match d case DestA => "100" case DestD => "010" case DestM => "001"
  {
    assert DestText(d) in HackDests();
    DestCodeStandard();
  }

  // ------------------------------------------------------------------ comp

  /** comp_dict: the computations over A, by their mnemonic. */
  function CompTable(): map<string, string> {
    map["0" := "101010", "1" := "111111", "-1" := "111010", "D" := "001100",
        "A" := "110000", "!D" := "001101", "!A" := "110001", "-D" := "001111",
        "-A" := "110011", "D+1" := "011111", "A+1" := "110111", "D-1" := "001110",
        "A-1" := "110010", "D+A" := "000010", "D-A" := "010011", "A-D" := "000111",
        "D&A" := "000000", "D|A" := "010101"]
  }

  /** Every entry of comp_dict is six binary digits. */
  lemma CompTableBits()
    ensures forall k :: k in CompTable() ==> |CompTable()[k]| == 6 && IsBinary(CompTable()[k])
  {
  }

  /** Code.comp: the a-bit is 1 exactly when M occurs in the mnemonic;
      the six c-bits are those of the mnemonic with every M read as A,
      and 000000 for a mnemonic the table does not list. */
  function CompCode(mnemonic: string): (r: string)
    ensures |r| == 7 && IsBinary(r)
    ensures r[0] == '1' <==> 'M' in mnemonic
  {
    var aBit := if 'M' in mnemonic then '1' else '0';
    var key := if 'M' in mnemonic then ReplaceChar(mnemonic, 'M', 'A') else mnemonic;
    assert 'M' !in mnemonic ==> key == ReplaceChar(mnemonic, 'M', 'A');
    CompTableBits();
    [aBit] + (if key in CompTable() then CompTable()[key] else "000000")
  }

  /** The c-bits of Code.comp: comp_dict's entry for the mnemonic with
      every M read as A, or 000000 where comp_dict has none. */
  lemma CompCodeBits(mnemonic: string)
    ensures var key := ReplaceChar(mnemonic, 'M', 'A');
      CompCode(mnemonic)[1..] == if key in CompTable() then CompTable()[key] else "000000"
  {
    var key := ReplaceChar(mnemonic, 'M', 'A');
    if 'M' !in mnemonic {
      assert key == mnemonic;
    }
    var t := if key in CompTable() then CompTable()[key] else "000000";
    assert CompCode(mnemonic) == [CompCode(mnemonic)[0]] + t;
  }

  /** The bits the Hack specification gives each computation the VM
      translator writes, a-bit first. */
  function CompWord(c: Comp): string {
    match c
    case Zero => "0101010"
    case MinusOne => "0111010"
    case RegA => "0110000"
    case RegD => "0001100"
    case RegM => "1110000"
    case MPlusOne => "1110111"
    case MMinusOne => "1110010"
    case MPlusD => "1000010"
    case MMinusD => "1000111"
    case MAndD => "1000000"
    case MOrD => "1010101"
    case NegM => "1110011"
    case NotM => "1110001"
    case DPlusA => "0000010"
    case DMinusA => "0010011"
    case DPlusOne => "0011111"
  }

  /** Code.comp gives the specification's bits for the constants and the
      single registers the VM translator writes. */
  lemma CompOfTranslatorRegister(c: Comp)
    requires c in {Zero, MinusOne, RegA, RegD, RegM}
    ensures CompCode(CompText(c)) == CompWord(c)
  {
    match c {
      case Zero => CompOfTranslatorConstant(c);
      case MinusOne => CompOfTranslatorConstant(c);
      case RegA => CompOfTranslatorAOrD(c);
      case RegD => CompOfTranslatorAOrD(c);
      case RegM => CompOfTranslatorM();
    }
  }

  lemma CompOfTranslatorConstant(c: Comp)
    requires c == Zero || c == MinusOne
    ensures CompCode(CompText(c)) == CompWord(c)
  {
  }

  lemma CompOfTranslatorAOrD(c: Comp)
    requires c == RegA || c == RegD
    ensures CompCode(CompText(c)) == CompWord(c)
  {
  }

  lemma CompOfTranslatorM()
    ensures CompCode(CompText(RegM)) == CompWord(RegM)
  {
    assert ReplaceChar("M", 'M', 'A') == "A";
  }

  /** Code.comp gives the specification's bits for the computations over
      A and D that the VM translator writes. */
  lemma CompOfTranslatorAD(c: Comp)
    requires c in {DPlusA, DMinusA, DPlusOne}
    ensures CompCode(CompText(c)) == CompWord(c)
  {
    match c {
      case DPlusA =>
      case DMinusA =>
      case DPlusOne =>
    }
  }

  /** Code.comp gives the specification's bits for M+1, M-1, -M and !M. */
  lemma CompOfTranslatorUnary(c: Comp)
    requires c in {MPlusOne, MMinusOne, NegM, NotM}
    ensures CompCode(CompText(c)) == CompWord(c)
  {
    if c == MPlusOne || c == MMinusOne {
      CompOfTranslatorStep(c);
    } else {
      CompOfTranslatorSign(c);
    }
  }

  lemma CompOfTranslatorStep(c: Comp)
    requires c == MPlusOne || c == MMinusOne
    ensures CompCode(CompText(c)) == CompWord(c)
  {
    if c == MPlusOne {
      assert ReplaceChar("M+1", 'M', 'A') == "A+1";
    } else {
      assert ReplaceChar("M-1", 'M', 'A') == "A-1";
    }
  }

  lemma CompOfTranslatorSign(c: Comp)
    requires c == NegM || c == NotM
    ensures CompCode(CompText(c)) == CompWord(c)
  {
    if c == NegM {
      assert ReplaceChar("-M", 'M', 'A') == "-A";
    } else {
      assert ReplaceChar("!M", 'M', 'A') == "!A";
    }
  }

  /** Code.comp gives the specification's bits for M-D and M&D: M-D is
      listed as A-D, and M&D, read as A&D, is unlisted but falls to
      000000, which happens to be the code of D&A. */
  lemma CompOfTranslatorBinary(c: Comp)
    requires c in {MMinusD, MAndD}
    ensures CompCode(CompText(c)) == CompWord(c)
  {
    if c == MMinusD {
      assert ReplaceChar("M-D", 'M', 'A') == "A-D";
    } else {
      assert ReplaceChar("M&D", 'M', 'A') == "A&D";
    }
  }

  /** The VM translator writes the add and or computations as M+D and
      M|D; with M read as A these are A+D and A|D, which comp_dict does
      not list (it has D+A and D|A), so both are encoded as 1000000, the
      bits of D&M. */
  lemma CompOfTranslatorSwapped(c: Comp)
    requires c == MPlusD || c == MOrD
    ensures CompCode(CompText(c)) == CompWord(MAndD) != CompWord(c)
  {
    if c == MPlusD {
      assert ReplaceChar("M+D", 'M', 'A') == "A+D";
    } else {
      assert ReplaceChar("M|D", 'M', 'A') == "A|D";
    }
  }

  /** Of all the computations the VM translator writes, Code.comp gives
      the specification's bits to exactly those other than M+D and M|D. */
  lemma CompOfTranslator(c: Comp)
    ensures CompCode(CompText(c)) == CompWord(c) <==> c != MPlusD && c != MOrD
  {
    if c in {Zero, MinusOne, RegA, RegD, RegM} {
      CompOfTranslatorRegister(c);
    } else if c in {DPlusA, DMinusA, DPlusOne} {
      CompOfTranslatorAD(c);
    } else if c in {MPlusOne, MMinusOne, NegM, NotM} {
      CompOfTranslatorUnary(c);
    } else if c in {MMinusD, MAndD} {
      CompOfTranslatorBinary(c);
    } else {
      CompOfTranslatorSwapped(c);
    }
  }

  // ------------------------------------------------------------------ jump

  /** jump_dict */
  function JumpTable(): (t: map<string, string>)
    ensures forall k :: k in t ==> |t[k]| == 3 && IsBinary(t[k])
  {
    map["JGT" := "001", "JEQ" := "010", "JGE" := "011", "JLT" := "100",
        "JNE" := "101", "JLE" := "110", "JMP" := "111"]
  }

  /** Code.jump: the table's bits for a mnemonic it lists; 000 for no jump
      and for a mnemonic it does not list. */
  function JumpCode(mnemonic: Option<string>): (r: string)
    ensures |r| == 3 && IsBinary(r)
    ensures mnemonic.Some? && mnemonic.value in JumpTable() ==> r == JumpTable()[mnemonic.value]
    ensures mnemonic.None? || mnemonic.value !in JumpTable() ==> r == "000"
  {
    if mnemonic.Some? && mnemonic.value in JumpTable() then JumpTable()[mnemonic.value] else "000"
  }

  /** The jump field names its condition: two listed mnemonics have
      different bits, and none has the bits of no jump. */
  lemma JumpCodeDecodes(m1: string, m2: string)
    requires m1 in JumpTable() && m2 in JumpTable()
    ensures JumpCode(Some(m1)) == JumpCode(Some(m2)) <==> m1 == m2
    ensures JumpCode(Some(m1)) != "000"
  {
  }

  /** The jump conditions the VM translator writes get the bits of the
      Hack specification. */
  lemma JumpOfTranslator(j: Cond)
    ensures JumpCode(Some(CondText(j)))
      == match j case JGT => "001" case JEQ => "010" case JLT => "100" case JNE => "101" case JMP => "111"
  {
  }
}
