/** The SymbolTable of the Hack assembler (projects/06/assembler.py): a
    dictionary from symbols to 15-digit binary addresses, preloaded with
    the predefined symbols of Hack assembly. */
module SymbolTables {
  /** base_table: the predefined symbols with their addresses written as
      15 binary digits. */
  function BaseTable(): map<string, string> {
    map[
      "SP" := "000000000000000", "LCL" := "000000000000001",
      "ARG" := "000000000000010", "THIS" := "000000000000011",
      "THAT" := "000000000000100",
      "R0" := "000000000000000", "R1" := "000000000000001",
      "R2" := "000000000000010", "R3" := "000000000000011",
      "R4" := "000000000000100", "R5" := "000000000000101",
      "R6" := "000000000000110", "R7" := "000000000000111",
      "R8" := "000000000001000", "R9" := "000000000001001",
      "R10" := "000000000001010", "R11" := "000000000001011",
      "R12" := "000000000001100", "R13" := "000000000001101",
      "R14" := "000000000001110", "R15" := "000000000001111",
      "SCREEN" := "100000000000000", "KBD" := "110000000000000"
    ]
  }

  class SymbolTable {
    /** symbol_dict */
    var symbols: map<string, string>
    /** ram_position: set to 16 and never read; the assembler counts the
        variables in its own ram_address. */
    var ramPosition: nat

    /** SymbolTable(): the predefined symbols only. */
    constructor ()
      ensures symbols == BaseTable() && ramPosition == 16
    {
      symbols := BaseTable();
      ramPosition := 16;
    }

    /** contains */
    function Contains(symbol: string): (r: bool)
      reads this`symbols
      ensures r <==> symbol in symbols
    {
      symbol in symbols
    }

    /** get_address: the dictionary lookup, which raises KeyError for an
        unlisted symbol. */
    function GetAddress(symbol: string): (r: string)
      reads this`symbols
      requires symbol in symbols
      ensures r == symbols[symbol]
    {
      symbols[symbol]
    }

    /** add_entry: set the address of a symbol, replacing any it had. */
    method AddEntry(symbol: string, address: string)
      modifies this`symbols
      ensures symbols == old(symbols)[symbol := address]
      ensures Contains(symbol) && GetAddress(symbol) == address
    {
      symbols := symbols[symbol := address];
    }
  }
}
