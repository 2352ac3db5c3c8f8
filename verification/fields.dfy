/** The instruction fields the CPU block slices out of the IF/ID instruction
    register (python/CPU.py:177, 182, 186, 192, 198). MyHDL's `sig(hi, lo)`
    is `Slice(sig, hi, lo)`: bits hi-1 down to lo. */
module InstructionFields {
  import opened Bits

  /** The slices of one instruction word, as the CPU block wires them. */
  datatype Fields = Fields(
    opcode: nat,        // IF_ID_instruction(32, 26), to the control unit
    rs: nat,            // IF_ID_instruction(26, 21), to the hazard unit, register file and ID/EX
    rt: nat,            // IF_ID_instruction(21, 16), likewise
    rd: nat,            // IF_ID_instruction(16, 11), to ID/EX
    funct: nat,         // IF_ID_instruction(6, 0), to ID/EX
    signExtendIn: nat)  // IF_ID_instruction(17, 0), to the sign extender

  /** Slices an instruction word into the fields the CPU block uses; each
      field lies below 2 to the power of its width. */
  function Extract(instr: nat): (f: Fields)
    ensures f.opcode < 64 && f.funct < 64
    ensures f.rs < 32 && f.rt < 32 && f.rd < 32
    ensures f.signExtendIn < 0x2_0000
  {
    Fields(
      Slice(instr, 32, 26),
      Slice(instr, 26, 21),
      Slice(instr, 21, 16),
      Slice(instr, 16, 11),
      Slice(instr, 6, 0),
      Slice(instr, 17, 0))
  }

  /** An R-format instruction word laid out from its six fields, most
      significant first: opcode, rs, rt, rd, shamt, funct. */
  function Assemble(opcode: nat, rs: nat, rt: nat, rd: nat, shamt: nat, funct: nat): (instr: nat)
    requires opcode < 64 && rs < 32 && rt < 32 && rd < 32 && shamt < 32 && funct < 64
    ensures instr < WordLimit
  {
    opcode * 0x400_0000 + rs * 0x20_0000 + rt * 0x1_0000 + rd * 0x800 + shamt * 0x40 + funct
  }

  /** Slicing an assembled word gives back the fields it was built from; the
      sign extender's 17-bit input is rd, shamt and funct topped by the low bit of rt. */
  lemma ExtractAssemble(opcode: nat, rs: nat, rt: nat, rd: nat, shamt: nat, funct: nat)
    requires opcode < 64 && rs < 32 && rt < 32 && rd < 32 && shamt < 32 && funct < 64
    ensures Extract(Assemble(opcode, rs, rt, rd, shamt, funct))
         == Fields(opcode, rs, rt, rd, funct, (rt % 2) * 0x1_0000 + rd * 0x800 + shamt * 0x40 + funct)
  {
    var x := Assemble(opcode, rs, rt, rd, shamt, funct);
    Pow2Table();
    SliceOf(x, 0, opcode, rs * 0x20_0000 + rt * 0x1_0000 + rd * 0x800 + shamt * 0x40 + funct, 32, 26);
    SliceOf(x, opcode, rs, rt * 0x1_0000 + rd * 0x800 + shamt * 0x40 + funct, 26, 21);
    SliceOf(x, opcode * 32 + rs, rt, rd * 0x800 + shamt * 0x40 + funct, 21, 16);
    SliceOf(x, opcode * 0x400 + rs * 32 + rt, rd, shamt * 0x40 + funct, 16, 11);
    SliceOf(x, opcode * 0x10_0000 + rs * 0x8000 + rt * 0x400 + rd * 32 + shamt, funct, 0, 6, 0);
    SliceOf(x, opcode * 0x200 + rs * 16 + rt / 2,
      (rt % 2) * 0x1_0000 + rd * 0x800 + shamt * 0x40 + funct, 0, 17, 0);
  }

  /** Every 32-bit word is the assembly of its own slices, with shamt the
      slice (11, 6) that the CPU block does not use. */
  lemma AssembleExtract(instr: nat)
    requires instr < WordLimit
    ensures var f := Extract(instr);
      Assemble(f.opcode, f.rs, f.rt, f.rd, Slice(instr, 11, 6), f.funct) == instr
  {
    Pow2Table();
    SliceStep(instr, 6, 0);
    SliceStep(instr, 11, 6);
    SliceStep(instr, 16, 11);
    SliceStep(instr, 21, 16);
    SliceStep(instr, 26, 21);
    SliceStep(instr, 32, 26);
  }

  /** The sign extender receives 17 bits: the 16-bit immediate field topped by
      bit 16, which is the low bit of rt. */
  lemma SignExtendInputHasBit16(instr: nat)
    ensures Extract(instr).signExtendIn == (Extract(instr).rt % 2) * 0x1_0000 + instr % 0x1_0000
  {
    Pow2Table();
    SliceStep(instr, 17, 16);
    SliceStep(instr, 21, 16);
  }
}
