/** The addresses of the Hack assembler (projects/06/assembler.py):
    create_address, and the predefined symbols base_table starts from. */
module HackAddresses {
  import opened Text
  import Hack
  import opened SymbolTables

  // -------------------------------------------------------- create_address

  /** create_address: the binary digits of v, padded with zeros to 15. */
  function CreateAddress(v: nat): string {
    Repeat('0', 15 - |Binary(v)|) + Binary(v)
  }

  /** create_address(v) is binary and denotes v; it is 15 digits exactly
      when v is below 2^15, and a larger value keeps all its digits. */
  lemma CreateAddressValue(v: nat)
    ensures var r := CreateAddress(v);
      IsBinary(r) && BinaryValue(r) == v && |r| >= 15 && (|r| == 15 <==> v < Pow2(15))
  {
    var b := Binary(v);
    var pad := if |b| <= 15 then 15 - |b| else 0;
    assert Repeat('0', 15 - |b|) == Repeat('0', pad);
    BinaryValueOfBinary(v);
    BinaryValueZeros(pad, b);
    BinaryLength(v, 15);
  }

  /** An address of the symbol table: 15 binary digits. */
  predicate IsAddress(a: string) {
    |a| == 15 && IsBinary(a)
  }

  /** Every address of a table is 15 binary digits. */
  predicate Addresses(t: map<string, string>) {
    forall s :: s in t ==> IsAddress(t[s])
  }

  /** The 15-digit strings are the addresses of the values below 2^15, one
      string for each value. */
  lemma CreateAddressUnique(a: string)
    requires IsAddress(a)
    ensures BinaryValue(a) < Pow2(15) && CreateAddress(BinaryValue(a)) == a
  {
    BinaryValueBound(a);
    CreateAddressValue(BinaryValue(a));
    BinaryUnique(CreateAddress(BinaryValue(a)), a);
  }

  // --------------------------------------------------------- the base table

  /** The virtual registers SP, LCL, ARG, THIS and THAT share the
      addresses of R0 to R4. */
  lemma BaseTablePointers()
    ensures BaseTable()["SP"] == BaseTable()["R0"] && BaseTable()["LCL"] == BaseTable()["R1"]
         && BaseTable()["ARG"] == BaseTable()["R2"] && BaseTable()["THIS"] == BaseTable()["R3"]
         && BaseTable()["THAT"] == BaseTable()["R4"]
  {
    var t := BaseTable();
    assert t["SP"] == t["R0"] == "000000000000000";
    assert t["LCL"] == t["R1"] == "000000000000001";
    assert t["ARG"] == t["R2"] == "000000000000010";
    assert t["THIS"] == t["R3"] == "000000000000011";
    assert t["THAT"] == t["R4"] == "000000000000100";
  }

  /** R0 and R1 are at 0 and 1. */
  lemma BaseTableRegisters0()
    ensures BaseTable()["R0"] == CreateAddress(0) && BaseTable()["R1"] == CreateAddress(1)
  {
  }

  /** R2 and R3 are at 2 and 3. */
  lemma BaseTableRegisters2()
    ensures BaseTable()["R2"] == CreateAddress(2) && BaseTable()["R3"] == CreateAddress(3)
  {
  }

  /** R4 and R5 are at 4 and 5. */
  lemma BaseTableRegisters4()
    ensures BaseTable()["R4"] == CreateAddress(4) && BaseTable()["R5"] == CreateAddress(5)
  {
  }

  /** R6 and R7 are at 6 and 7. */
  lemma BaseTableRegisters6()
    ensures BaseTable()["R6"] == CreateAddress(6) && BaseTable()["R7"] == CreateAddress(7)
  {
  }

  /** R8 and R9 are at 8 and 9. */
  lemma BaseTableRegisters8()
    ensures BaseTable()["R8"] == CreateAddress(8) && BaseTable()["R9"] == CreateAddress(9)
  {
  }

  /** R10 and R11 are at 10 and 11. */
  lemma BaseTableRegisters10()
    ensures BaseTable()["R10"] == CreateAddress(10) && BaseTable()["R11"] == CreateAddress(11)
  {
    assert BaseTable()["R10"] == CreateAddress(10);
  }

  /** R12 and R13 are at 12 and 13. */
  lemma BaseTableRegisters12()
    ensures BaseTable()["R12"] == CreateAddress(12) && BaseTable()["R13"] == CreateAddress(13)
  {
  }

  /** R14 and R15 are at 14 and 15. */
  lemma BaseTableRegisters14()
    ensures BaseTable()["R14"] == CreateAddress(14) && BaseTable()["R15"] == CreateAddress(15)
  {
  }

  /** SCREEN is at 16384. */
  lemma BaseTableScreen()
    ensures BaseTable()["SCREEN"] == CreateAddress(16384)
  {
    ScreenBinary();
    assert CreateAddress(16384) == "1" + Repeat('0', 14);
  }

  /** KBD is at 24576. */
  lemma BaseTableKeyboard()
    ensures BaseTable()["KBD"] == CreateAddress(24576)
  {
    KeyboardBinary();
    assert CreateAddress(24576) == "11" + Repeat('0', 13);
  }

  /** 16384 is 2^14. */
  lemma ScreenBinary()
    ensures Binary(16384) == "1" + Repeat('0', 14)
  {
    assert Pow2(14) == 16384;
    BinaryShift(1, 14);
  }

  /** 24576 is 3 * 2^13. */
  lemma KeyboardBinary()
    ensures Binary(24576) == "11" + Repeat('0', 13)
  {
    assert Pow2(13) == 8192;
    BinaryShift(3, 13);
  }

  /** base_table lists exactly the predefined symbols of Hack assembly,
      each at a 15-digit address. */
  lemma BaseTableAddresses()
    ensures BaseTable().Keys == Hack.Predefined().Keys
    ensures Addresses(BaseTable())
  {
    var t := BaseTable();
    BaseTableValues();
    forall s | s in t
      ensures IsAddress(t[s])
    {
      assert t[s] in t.Values;
    }
  }

  /** base_table agrees with the predefined symbols of Hack assembly: each
      symbol is at create_address of its predefined value. */
  lemma BaseTableMatches()
    ensures forall s :: s in BaseTable() ==> s in Hack.Predefined() && BaseTable()[s] == CreateAddress(Hack.Predefined()[s])
  {
    BaseTableAddresses();
    forall s | s in BaseTable()
      ensures BaseTable()[s] == CreateAddress(Hack.Predefined()[s])
    {
      BaseTableEntry(s);
    }
  }

  /** One symbol of base_table, taken group by group. */
  lemma BaseTableEntry(s: string)
    requires s in BaseTable()
    ensures s in Hack.Predefined() && BaseTable()[s] == CreateAddress(Hack.Predefined()[s])
  {
    if s == "SP" || s == "LCL" || s == "ARG" {
      BaseTableGroupPointers0(s);
    } else if s == "THIS" || s == "THAT" {
      BaseTableGroupPointers3(s);
    } else if s == "R0" || s == "R1" {
      BaseTableGroupRegisters0(s);
    } else if s == "R2" || s == "R3" {
      BaseTableGroupRegisters2(s);
    } else if s == "R4" || s == "R5" {
      BaseTableGroupRegisters4(s);
    } else if s == "R6" || s == "R7" {
      BaseTableGroupRegisters6(s);
    } else if s == "R8" || s == "R9" {
      BaseTableGroupRegisters8(s);
    } else if s == "R10" || s == "R11" {
      BaseTableGroupRegisters10(s);
    } else if s == "R12" || s == "R13" {
      BaseTableGroupRegisters12(s);
    } else if s == "R14" || s == "R15" {
      BaseTableGroupRegisters14(s);
    } else {
      BaseTableGroupDevices(s);
    }
  }

  /** The groups of symbols BaseTableEntry tells apart, each settled by
      the lemmas about its addresses. */
  lemma BaseTableGroupPointers0(s: string)
    requires s == "SP" || s == "LCL" || s == "ARG"
    ensures s in Hack.Predefined() && BaseTable()[s] == CreateAddress(Hack.Predefined()[s])
  {
    BaseTablePointers();
    BaseTableRegisters0();
    BaseTableRegisters2();
    if s == "SP" {
      assert Hack.Predefined()[s] == 0;
    } else if s == "LCL" {
      assert Hack.Predefined()[s] == 1;
    } else {
      assert Hack.Predefined()[s] == 2;
    }
  }

  lemma BaseTableGroupPointers3(s: string)
    requires s == "THIS" || s == "THAT"
    ensures s in Hack.Predefined() && BaseTable()[s] == CreateAddress(Hack.Predefined()[s])
  {
    BaseTablePointers();
    BaseTableRegisters2();
    BaseTableRegisters4();
    if s == "THIS" {
      assert Hack.Predefined()[s] == 3;
    } else {
      assert Hack.Predefined()[s] == 4;
    }
  }

  lemma BaseTableGroupRegisters0(s: string)
    requires s == "R0" || s == "R1"
    ensures s in Hack.Predefined() && BaseTable()[s] == CreateAddress(Hack.Predefined()[s])
  {
    BaseTableRegisters0();
  }

  lemma BaseTableGroupRegisters2(s: string)
    requires s == "R2" || s == "R3"
    ensures s in Hack.Predefined() && BaseTable()[s] == CreateAddress(Hack.Predefined()[s])
  {
    BaseTableRegisters2();
  }

  lemma BaseTableGroupRegisters4(s: string)
    requires s == "R4" || s == "R5"
    ensures s in Hack.Predefined() && BaseTable()[s] == CreateAddress(Hack.Predefined()[s])
  {
    BaseTableRegisters4();
  }

  lemma BaseTableGroupRegisters6(s: string)
    requires s == "R6" || s == "R7"
    ensures s in Hack.Predefined() && BaseTable()[s] == CreateAddress(Hack.Predefined()[s])
  {
    BaseTableRegisters6();
  }

  lemma BaseTableGroupRegisters8(s: string)
    requires s == "R8" || s == "R9"
    ensures s in Hack.Predefined() && BaseTable()[s] == CreateAddress(Hack.Predefined()[s])
  {
    BaseTableRegisters8();
  }

  lemma BaseTableGroupRegisters10(s: string)
    requires s == "R10" || s == "R11"
    ensures s in Hack.Predefined() && BaseTable()[s] == CreateAddress(Hack.Predefined()[s])
  {
    BaseTableRegisters10();
  }

  lemma BaseTableGroupRegisters12(s: string)
    requires s == "R12" || s == "R13"
    ensures s in Hack.Predefined() && BaseTable()[s] == CreateAddress(Hack.Predefined()[s])
  {
    BaseTableRegisters12();
  }

  lemma BaseTableGroupRegisters14(s: string)
    requires s == "R14" || s == "R15"
    ensures s in Hack.Predefined() && BaseTable()[s] == CreateAddress(Hack.Predefined()[s])
  {
    BaseTableRegisters14();
  }

  lemma BaseTableGroupDevices(s: string)
    requires s == "SCREEN" || s == "KBD"
    ensures s in Hack.Predefined() && BaseTable()[s] == CreateAddress(Hack.Predefined()[s])
  {
    BaseTableScreen();
    BaseTableKeyboard();
  }

  lemma BaseTableValues()
    ensures forall a :: a in BaseTable().Values ==> IsAddress(a)
  {
  }
}
