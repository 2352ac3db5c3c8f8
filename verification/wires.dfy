/** The signals declared by the CPU block of python/CPU.py (lines 45-167 and
    225), with the bit width and the initial value of each `Signal(intbv(init,
    0, 2**width))`, and the pipeline stage under whose heading the file
    declares it. A valuation gives every signal a value at one instant. */
module Wires {
  import opened Bits
  import opened Wrappers

  /** Every signal the CPU block declares, in declaration order. */
  datatype Wire =
    | PC_out | PC_plus4 | instruction_out | PO_write | IF_ID_PC_plus4 | IF_ID_instruction
    | MEM_WB_RegisterRd | reg_read_data_1 | reg_read_data_2 | immi_sign_extended | BTA
    | Jump_Address | jump_base28 | Jump | Branch | MemRead | MemWrite | ALUSrc | RegWrite
    | RegDst | MemToReg | ALUOp | In3_jal_ra | first_alu_mux_3_to_1_out
    | second_alu_mux_3_to_1_out | third_alu_mux_2_to_1_out | idEx_to_exMem_mux_2_to_1_out
    | writeback_source_mux_3_to_1_out | regDst_mux_2_to_1_out
    | first_PC4_or_branch_mux_2_to_1_out | second_jump_or_first_mux_2_to_1_out
    | third_jr_or_second_mux_2_to_1_out | h_RegWrite_out | h_MemWrite_out | PCWrite
    | IF_ID_Write | ID_Flush_lwstall | PCSrc | IF_Flush | ID_Flush_Branch | EX_Flush
    | ID_EX_Jump | ID_EX_Branch | ID_EX_MemRead | ID_EX_MemWrite | ID_EX_ALUSrc | ID_EX_RegWrite
    | ALU_zero | JRControl | ID_EX_jump_addr | ID_EX_branch_address | ID_EX_PC_plus4
    | ID_EX_reg_read_data_1 | ID_EX_reg_read_data_2 | ID_EX_immi_sign_extended | muxA_out
    | muxB_out | after_ALUSrc | ALU_result | after_shift | ID_EX_RegDst | ID_EX_MemtoReg
    | out_to_ALU | ID_EX_ALUOp | ID_EX_RegisterRs | ID_EX_RegisterRt | ID_EX_RegisterRd
    | EX_RegisterRd | ID_EX_funct | EX_MEM_PC_plus_4 | EX_MEM_RegisterRd | EX_MEM_Branch
    | EX_MEM_MemRead | EX_MEM_MemWrite | EX_MEM_Jump | Branch_taken | EX_MEM_ALU_zero
    | EX_MEM_MemtoReg | EX_MEM_RegWrite | EX_MEM_jump_addr | EX_MEM_branch_addr
    | EX_MEM_ALU_result | EX_MEM_reg_read_data_2 | D_MEM_data | reg_write_data
    | MEM_WB_PC_plus_4 | MEM_WB_RegWrite | MEM_WB_MemtoReg | MEM_WB_RegDst
    | MEM_WB_D_MEM_read_data | MEM_WB_D_MEM_read_addr | ForwardA | ForwardB
    | branch_or_jump_taken | PC_in | branch_taken

  /** The pipeline stages named by the file's wire headings. */
  datatype Stage = IF | ID | EX | MEM | WB

  /** The bit width of each signal. */
  function Width(w: Wire): (n: nat)
    ensures 1 <= n <= 32
  {
    match w
    case PC_out | PC_plus4 | instruction_out | IF_ID_PC_plus4 | IF_ID_instruction
        | reg_read_data_1 | reg_read_data_2 | immi_sign_extended | BTA | Jump_Address
        | first_alu_mux_3_to_1_out | second_alu_mux_3_to_1_out | third_alu_mux_2_to_1_out
        | writeback_source_mux_3_to_1_out | first_PC4_or_branch_mux_2_to_1_out
        | second_jump_or_first_mux_2_to_1_out | third_jr_or_second_mux_2_to_1_out
        | ID_EX_jump_addr | ID_EX_branch_address | ID_EX_PC_plus4 | ID_EX_reg_read_data_1
        | ID_EX_reg_read_data_2 | ID_EX_immi_sign_extended | muxA_out | muxB_out | after_ALUSrc
        | ALU_result | after_shift | EX_MEM_PC_plus_4 | EX_MEM_jump_addr | EX_MEM_branch_addr
        | EX_MEM_ALU_result | EX_MEM_reg_read_data_2 | D_MEM_data | reg_write_data
        | MEM_WB_PC_plus_4 | MEM_WB_D_MEM_read_data | MEM_WB_D_MEM_read_addr | PC_in => 32
    case jump_base28 => 28
    case ID_EX_funct => 6
    case MEM_WB_RegisterRd | In3_jal_ra | idEx_to_exMem_mux_2_to_1_out | regDst_mux_2_to_1_out
        | ID_EX_RegisterRs | ID_EX_RegisterRt | ID_EX_RegisterRd | EX_RegisterRd
        | EX_MEM_RegisterRd => 5
    case ALUOp | ID_EX_ALUOp => 3
    case RegDst | MemToReg | ID_EX_RegDst | ID_EX_MemtoReg | out_to_ALU | EX_MEM_MemtoReg
        | MEM_WB_MemtoReg | MEM_WB_RegDst | ForwardA | ForwardB => 2
    case PO_write | Jump | Branch | MemRead | MemWrite | ALUSrc | RegWrite | h_RegWrite_out
        | h_MemWrite_out | PCWrite | IF_ID_Write | ID_Flush_lwstall | PCSrc | IF_Flush
        | ID_Flush_Branch | EX_Flush | ID_EX_Jump | ID_EX_Branch | ID_EX_MemRead
        | ID_EX_MemWrite | ID_EX_ALUSrc | ID_EX_RegWrite | ALU_zero | JRControl | EX_MEM_Branch
        | EX_MEM_MemRead | EX_MEM_MemWrite | EX_MEM_Jump | Branch_taken | EX_MEM_ALU_zero
        | EX_MEM_RegWrite | MEM_WB_RegWrite | branch_or_jump_taken | branch_taken => 1
  }

  /** The number of values a signal can hold, 2 to the power of its width
      (LimitIsPow2), written out. */
  function Limit(w: Wire): nat
  {
    match w
    case PC_out | PC_plus4 | instruction_out | IF_ID_PC_plus4 | IF_ID_instruction
        | reg_read_data_1 | reg_read_data_2 | immi_sign_extended | BTA | Jump_Address
        | first_alu_mux_3_to_1_out | second_alu_mux_3_to_1_out | third_alu_mux_2_to_1_out
        | writeback_source_mux_3_to_1_out | first_PC4_or_branch_mux_2_to_1_out
        | second_jump_or_first_mux_2_to_1_out | third_jr_or_second_mux_2_to_1_out
        | ID_EX_jump_addr | ID_EX_branch_address | ID_EX_PC_plus4 | ID_EX_reg_read_data_1
        | ID_EX_reg_read_data_2 | ID_EX_immi_sign_extended | muxA_out | muxB_out | after_ALUSrc
        | ALU_result | after_shift | EX_MEM_PC_plus_4 | EX_MEM_jump_addr | EX_MEM_branch_addr
        | EX_MEM_ALU_result | EX_MEM_reg_read_data_2 | D_MEM_data | reg_write_data
        | MEM_WB_PC_plus_4 | MEM_WB_D_MEM_read_data | MEM_WB_D_MEM_read_addr | PC_in => 0x1_0000_0000
    case jump_base28 => 0x1000_0000
    case ID_EX_funct => 64
    case MEM_WB_RegisterRd | In3_jal_ra | idEx_to_exMem_mux_2_to_1_out | regDst_mux_2_to_1_out
        | ID_EX_RegisterRs | ID_EX_RegisterRt | ID_EX_RegisterRd | EX_RegisterRd
        | EX_MEM_RegisterRd => 32
    case ALUOp | ID_EX_ALUOp => 8
    case RegDst | MemToReg | ID_EX_RegDst | ID_EX_MemtoReg | out_to_ALU | EX_MEM_MemtoReg
        | MEM_WB_MemtoReg | MEM_WB_RegDst | ForwardA | ForwardB => 4
    case PO_write | Jump | Branch | MemRead | MemWrite | ALUSrc | RegWrite | h_RegWrite_out
        | h_MemWrite_out | PCWrite | IF_ID_Write | ID_Flush_lwstall | PCSrc | IF_Flush
        | ID_Flush_Branch | EX_Flush | ID_EX_Jump | ID_EX_Branch | ID_EX_MemRead
        | ID_EX_MemWrite | ID_EX_ALUSrc | ID_EX_RegWrite | ALU_zero | JRControl | EX_MEM_Branch
        | EX_MEM_MemRead | EX_MEM_MemWrite | EX_MEM_Jump | Branch_taken | EX_MEM_ALU_zero
        | EX_MEM_RegWrite | MEM_WB_RegWrite | branch_or_jump_taken | branch_taken => 2
  }

  /** The written-out ranges are those of the declared widths. */
  lemma LimitIsPow2(w: Wire)
    ensures Limit(w) == Pow2(Width(w))
  {
    Pow2Table();
  }

  /** The value each signal holds when the CPU block is constructed: PC_plus4
      starts at 4, IF_ID_Write at 1 and the link-register constant In3_jal_ra
      at 31; every other signal starts at 0. Each lies in its signal's range. */
  function InitialValue(w: Wire): (r: nat)
    ensures r < Limit(w)
    ensures r != 0 <==> w == PC_plus4 || w == IF_ID_Write || w == In3_jal_ra
    ensures w == PC_plus4 ==> r == 4
    ensures w == IF_ID_Write ==> r == 1
    ensures w == In3_jal_ra ==> r == 31
  {
    match w
    case PC_plus4 => 4
    case IF_ID_Write => 1
    case In3_jal_ra => 31
    case _ => 0
  }

  /** The stage heading under which the file declares a signal, if any. */
  function StageOf(w: Wire): Option<Stage>
  {
    match w
    case PC_out | PC_plus4 | instruction_out | PO_write => Some(IF)
    case IF_ID_PC_plus4 | IF_ID_instruction | MEM_WB_RegisterRd | reg_read_data_1
        | reg_read_data_2 | immi_sign_extended | BTA | Jump_Address | jump_base28 | Jump
        | Branch | MemRead | MemWrite | ALUSrc | RegWrite | RegDst | MemToReg | ALUOp
        | In3_jal_ra => Some(ID)
    case ID_EX_Jump | ID_EX_Branch | ID_EX_MemRead | ID_EX_MemWrite | ID_EX_ALUSrc
        | ID_EX_RegWrite | ALU_zero | JRControl | ID_EX_jump_addr | ID_EX_branch_address
        | ID_EX_PC_plus4 | ID_EX_reg_read_data_1 | ID_EX_reg_read_data_2
        | ID_EX_immi_sign_extended | muxA_out | muxB_out | after_ALUSrc | ALU_result
        | after_shift | ID_EX_RegDst | ID_EX_MemtoReg | out_to_ALU | ID_EX_ALUOp
        | ID_EX_RegisterRs | ID_EX_RegisterRt | ID_EX_RegisterRd | EX_RegisterRd | ID_EX_funct => Some(EX)
    case EX_MEM_PC_plus_4 | EX_MEM_RegisterRd | EX_MEM_Branch | EX_MEM_MemRead | EX_MEM_MemWrite
        | EX_MEM_Jump | Branch_taken | EX_MEM_ALU_zero | EX_MEM_MemtoReg | EX_MEM_RegWrite
        | EX_MEM_jump_addr | EX_MEM_branch_addr | EX_MEM_ALU_result | EX_MEM_reg_read_data_2
        | D_MEM_data => Some(MEM)
    case reg_write_data | MEM_WB_PC_plus_4 | MEM_WB_RegWrite | MEM_WB_MemtoReg | MEM_WB_RegDst
        | MEM_WB_D_MEM_read_data | MEM_WB_D_MEM_read_addr => Some(WB)
    case _ => None
  }

  /** The value of every signal at one instant. */
  type Valuation = Wire -> nat

  /** Every signal holds a value within its declared width. */
  ghost predicate WellTyped(v: Valuation)
  {
    forall w: Wire :: v(w) < Limit(w)
  }

  /** The valuation right after construction; it is well-typed. */
  function Initial(): (v: Valuation)
    ensures WellTyped(v)
  {
    w => InitialValue(w)
  }

  /** Two valuations agree on every signal outside ws. */
  ghost predicate AgreeExcept(v: Valuation, v': Valuation, ws: set<Wire>)
  {
    forall w: Wire :: w !in ws ==> v(w) == v'(w)
  }
}
