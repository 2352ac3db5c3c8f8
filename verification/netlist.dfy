/** The structure of the CPU block (python/CPU.py:50-232): every block
    instance it creates, with the signals it passes to that instance in
    positional order. The bodies of the instantiated blocks are not part of
    this model; what is stated here is who is connected to what, and, for
    the multiplexer instances, that the selections of the Datapath module
    read exactly the signals the instances are given. */
module Netlist {
  import opened Bits
  import opened Wrappers
  import opened Wires
  import opened InstructionFields
  import opened AluDecoder
  import opened Datapath

  /** One positional argument of an instance. */
  datatype Arg =
    | Whole(wire: Wire)                  // a declared signal
    | Field(hi: nat, lo: nat)            // the slice IF_ID_instruction(hi, lo), bits hi-1..lo
    | Clock                              // the CPU's clock port
    | Reset                              // the CPU's reset port
    | RegOut                             // the CPU's register observation port
    | RegOutAt(index: nat)               // one element of that port, regOut[index]
    | InstructionFile                    // the file name given to the instruction memory
    | MemoryList                         // the list `mem` given to the instruction memory

  /** Every block instance of the CPU block, named by its variable, in creation order. */
  datatype Unit =
    | pcp4_driver | Unit27 | Unit0 | Unit1 | se_driver | Unit3 | Unit4 | Unit5 | Unit25 | Unit6
    | Unit28 | Unit7 | Unit8 | Unit9 | Unit24 | Unit11 | Unit12 | Unit13 | Unit14 | Unit15
    | Unit16 | Unit10 | Unit17 | Unit18 | Unit19 | Unit26 | Unit20 | branch_checker | Unit21
    | Unit22 | Unit23

  /** The block each instance instantiates. */
  function Block(u: Unit): (b: string)
    ensures b == "if_id" <==> u == Unit3
    ensures b == "id_ex" <==> u == Unit24
    ensures b == "ex_mem" <==> u == Unit18
    ensures b == "mem_wb" <==> u == Unit20
    ensures b == "regDst_mux_2_to_1" <==> u == Unit5
    ensures b == "hazard_stall_mux_2_to_1" <==> u == Unit6
  {
    match u
    case pcp4_driver => "PC_Increment"
    case Unit27 => "PC_input_2_to_1"
    case Unit0 => "program_counter"
    case Unit1 => "Instruction_Memory"
    case se_driver => "Sign_Extender"
    case Unit3 => "if_id"
    case Unit4 => "control"
    case Unit5 => "regDst_mux_2_to_1"
    case Unit25 => "hazard_unit"
    case Unit6 => "hazard_stall_mux_2_to_1"
    case Unit28 => "writeback_source_mux_3_to_1"
    case Unit7 => "RegisterFile"
    case Unit8 => "branch_calculator"
    case Unit9 => "jump_calculator"
    case Unit24 => "id_ex"
    case Unit11 => "alu_control"
    case Unit12 => "JR_Control"
    case Unit13 => "ForwardingUnit"
    case Unit14 => "first_alu_mux_3_to_1"
    case Unit15 => "second_alu_mux_3_to_1"
    case Unit16 => "third_alu_mux_2_to_1"
    case Unit10 => "alu"
    case Unit17 => "idEx_to_exMem_mux_2_to_1"
    case Unit18 => "ex_mem"
    case Unit19 => "Data_Memory"
    case Unit26 => "branch_or_jump_taken_flush"
    case Unit20 => "mem_wb"
    case branch_checker => "isBranch"
    case Unit21 => "first_PC4_or_branch_mux_2_to_1"
    case Unit22 => "second_jump_or_first_mux_2_to_1"
    case Unit23 => "third_jr_or_second_mux_2_to_1"
  }

  /** The signals each instance is given, in positional order. */
  function Args(u: Unit): seq<Arg>
  {
    match u
    case pcp4_driver => pcp4_driverArgs()
    case Unit27 => Unit27Args()
    case Unit0 => Unit0Args()
    case Unit1 => Unit1Args()
    case se_driver => se_driverArgs()
    case Unit3 => Unit3Args()
    case Unit4 => Unit4Args()
    case Unit5 => Unit5Args()
    case Unit25 => Unit25Args()
    case Unit6 => Unit6Args()
    case Unit28 => Unit28Args()
    case Unit7 => Unit7Args()
    case Unit8 => Unit8Args()
    case Unit9 => Unit9Args()
    case Unit24 => Unit24Args()
    case Unit11 => Unit11Args()
    case Unit12 => Unit12Args()
    case Unit13 => Unit13Args()
    case Unit14 => Unit14Args()
    case Unit15 => Unit15Args()
    case Unit16 => Unit16Args()
    case Unit10 => Unit10Args()
    case Unit17 => Unit17Args()
    case Unit18 => Unit18Args()
    case Unit19 => Unit19Args()
    case Unit26 => Unit26Args()
    case Unit20 => Unit20Args()
    case branch_checker => branch_checkerArgs()
    case Unit21 => Unit21Args()
    case Unit22 => Unit22Args()
    case Unit23 => Unit23Args()
  }

  function pcp4_driverArgs(): seq<Arg>
  {
    [Clock, Whole(PC_out), Whole(PC_plus4)]
  }

  function Unit27Args(): seq<Arg>
  {
    [Whole(PC_plus4), Whole(third_jr_or_second_mux_2_to_1_out),
     Whole(branch_or_jump_taken), Whole(PC_in)]
  }

  function Unit0Args(): seq<Arg>
  {
    [Clock, Reset, Whole(PC_out), Whole(PC_in), Whole(PCWrite)]
  }

  function Unit1Args(): seq<Arg>
  {
    [Clock, Whole(PC_out), Whole(instruction_out), InstructionFile, MemoryList]
  }

  function se_driverArgs(): seq<Arg>
  {
    [Field(17, 0), Whole(immi_sign_extended)]
  }

  function Unit3Args(): seq<Arg>
  {
    [Clock, Reset, Whole(instruction_out), Whole(IF_ID_instruction),
     Whole(PC_plus4), Whole(IF_ID_PC_plus4), Whole(IF_Flush), Whole(IF_ID_Write)]
  }

  function Unit4Args(): seq<Arg>
  {
    [Field(32, 26), Whole(ALUSrc), Whole(RegDst), Whole(MemWrite),
     Whole(MemRead), Whole(Branch), Whole(Jump), Whole(MemToReg), Whole(RegWrite), Whole(ALUOp)]
  }

  function Unit5Args(): seq<Arg>
  {
    [Whole(MEM_WB_RegisterRd), Whole(In3_jal_ra), Whole(MEM_WB_RegDst),
     Whole(regDst_mux_2_to_1_out)]
  }

  function Unit25Args(): seq<Arg>
  {
    [Whole(ID_EX_MemRead), Whole(ID_EX_RegisterRt),
     Field(26, 21), Field(21, 16), Whole(ID_Flush_lwstall),
     Whole(PCWrite), Whole(IF_ID_Write)]
  }

  function Unit6Args(): seq<Arg>
  {
    [Whole(RegWrite), Whole(MemWrite), Whole(ID_Flush_lwstall),
     Whole(h_RegWrite_out), Whole(h_MemWrite_out)]
  }

  function Unit28Args(): seq<Arg>
  {
    [Whole(MEM_WB_D_MEM_read_addr), Whole(MEM_WB_D_MEM_read_data),
     Whole(MEM_WB_PC_plus_4), Whole(MEM_WB_MemtoReg), Whole(writeback_source_mux_3_to_1_out)]
  }

  function Unit7Args(): seq<Arg>
  {
    [Whole(reg_read_data_1), Whole(reg_read_data_2),
     Whole(writeback_source_mux_3_to_1_out), Field(26, 21),
     Field(21, 16), Whole(regDst_mux_2_to_1_out), Whole(MEM_WB_RegWrite),
     Clock, Reset, RegOut]
  }

  function Unit8Args(): seq<Arg>
  {
    [Whole(immi_sign_extended), Whole(IF_ID_PC_plus4), Whole(BTA)]
  }

  function Unit9Args(): seq<Arg>
  {
    [Whole(IF_ID_instruction), Whole(IF_ID_PC_plus4), Whole(Jump_Address)]
  }

  function Unit24Args(): seq<Arg>
  {
    [Clock, Reset, Whole(ID_Flush_lwstall), Whole(ID_Flush_Branch), Whole(Branch),
     Whole(MemRead), Whole(MemWrite), Whole(Jump), Whole(RegWrite), Whole(ALUSrc), Whole(ALUOp),
     Whole(RegDst), Whole(MemToReg), Whole(Jump_Address), Whole(IF_ID_PC_plus4), Whole(BTA),
     Whole(reg_read_data_1), Whole(reg_read_data_2), Whole(immi_sign_extended),
     Field(26, 21), Field(21, 16),
     Field(16, 11), Field(6, 0), Whole(ID_EX_RegWrite),
     Whole(ID_EX_Branch), Whole(ID_EX_MemRead), Whole(ID_EX_MemWrite), Whole(ID_EX_Jump),
     Whole(ID_EX_ALUSrc), Whole(ID_EX_ALUOp), Whole(ID_EX_RegDst), Whole(ID_EX_MemtoReg),
     Whole(ID_EX_jump_addr), Whole(ID_EX_branch_address), Whole(ID_EX_PC_plus4),
     Whole(ID_EX_reg_read_data_1), Whole(ID_EX_reg_read_data_2), Whole(ID_EX_immi_sign_extended),
     Whole(ID_EX_RegisterRs), Whole(ID_EX_RegisterRt), Whole(ID_EX_RegisterRd),
     Whole(ID_EX_funct)]
  }

  function Unit11Args(): seq<Arg>
  {
    [Whole(ID_EX_ALUOp), Whole(ID_EX_funct), Whole(out_to_ALU)]
  }

  function Unit12Args(): seq<Arg>
  {
    [Whole(ID_EX_ALUOp), Whole(ID_EX_funct), Whole(JRControl)]
  }

  function Unit13Args(): seq<Arg>
  {
    [Whole(ID_EX_RegisterRs), Whole(ID_EX_RegisterRt), Whole(EX_MEM_RegisterRd),
     Whole(MEM_WB_RegisterRd), Whole(MEM_WB_RegWrite), Whole(EX_MEM_RegWrite), Whole(ForwardA),
     Whole(ForwardB)]
  }

  function Unit14Args(): seq<Arg>
  {
    [Whole(ID_EX_reg_read_data_1), Whole(EX_MEM_reg_read_data_2),
     Whole(MEM_WB_D_MEM_read_data), Whole(ForwardA), Whole(first_alu_mux_3_to_1_out)]
  }

  function Unit15Args(): seq<Arg>
  {
    [Whole(ID_EX_reg_read_data_2), Whole(EX_MEM_reg_read_data_2),
     Whole(MEM_WB_D_MEM_read_data), Whole(ForwardB), Whole(second_alu_mux_3_to_1_out)]
  }

  function Unit16Args(): seq<Arg>
  {
    [Whole(second_alu_mux_3_to_1_out), Whole(immi_sign_extended), Whole(ALUSrc),
     Whole(third_alu_mux_2_to_1_out)]
  }

  function Unit10Args(): seq<Arg>
  {
    [Clock, Reset, Whole(first_alu_mux_3_to_1_out),
     Whole(third_alu_mux_2_to_1_out), Whole(out_to_ALU), Whole(ALU_result), Whole(ALU_zero)]
  }

  function Unit17Args(): seq<Arg>
  {
    [Whole(ID_EX_RegisterRd), Whole(ID_EX_RegisterRt), Whole(ID_EX_RegDst),
     Whole(idEx_to_exMem_mux_2_to_1_out)]
  }

  function Unit18Args(): seq<Arg>
  {
    [Clock, Reset, Whole(EX_Flush), Whole(ID_EX_RegWrite), Whole(ID_EX_MemtoReg),
     Whole(ID_EX_Branch), Whole(ID_EX_MemRead), Whole(ID_EX_MemWrite), Whole(ID_EX_Jump),
     Whole(ID_EX_jump_addr), Whole(ID_EX_branch_address), Whole(ALU_zero), Whole(ALU_result),
     Whole(second_alu_mux_3_to_1_out), Whole(idEx_to_exMem_mux_2_to_1_out),
     Whole(ID_EX_PC_plus4), Whole(EX_MEM_RegWrite), Whole(EX_MEM_MemtoReg), Whole(EX_MEM_Branch),
     Whole(EX_MEM_MemRead), Whole(EX_MEM_MemWrite), Whole(EX_MEM_Jump), Whole(EX_MEM_jump_addr),
     Whole(EX_MEM_branch_addr), Whole(EX_MEM_ALU_zero), Whole(EX_MEM_ALU_result),
     Whole(EX_MEM_reg_read_data_2), Whole(EX_MEM_RegisterRd), Whole(EX_MEM_PC_plus_4)]
  }

  function Unit19Args(): seq<Arg>
  {
    [Clock, Whole(EX_MEM_ALU_result), Whole(EX_MEM_MemWrite),
     Whole(EX_MEM_MemRead), Whole(D_MEM_data), Whole(EX_MEM_reg_read_data_2)]
  }

  function Unit26Args(): seq<Arg>
  {
    [Whole(EX_MEM_Branch), Whole(EX_MEM_Jump), Whole(EX_MEM_ALU_zero),
     Whole(IF_Flush), Whole(ID_Flush_Branch), Whole(EX_Flush), Whole(branch_or_jump_taken)]
  }

  function Unit20Args(): seq<Arg>
  {
    [Clock, Reset, Whole(EX_MEM_RegWrite), Whole(EX_MEM_MemtoReg),
     Whole(D_MEM_data), Whole(EX_MEM_ALU_result), Whole(EX_MEM_RegisterRd),
     Whole(EX_MEM_PC_plus_4), Whole(MEM_WB_D_MEM_read_data), Whole(MEM_WB_D_MEM_read_addr),
     Whole(MEM_WB_RegisterRd), Whole(MEM_WB_RegWrite), Whole(MEM_WB_MemtoReg),
     Whole(MEM_WB_PC_plus_4)]
  }

  function branch_checkerArgs(): seq<Arg>
  {
    [Whole(ALU_zero), Whole(Branch), Whole(branch_taken)]
  }

  function Unit21Args(): seq<Arg>
  {
    [Whole(ID_EX_PC_plus4), Whole(BTA), Whole(branch_taken),
     Whole(first_PC4_or_branch_mux_2_to_1_out)]
  }

  function Unit22Args(): seq<Arg>
  {
    [Whole(first_PC4_or_branch_mux_2_to_1_out), Whole(Jump_Address), Whole(Jump),
     Whole(second_jump_or_first_mux_2_to_1_out)]
  }

  function Unit23Args(): seq<Arg>
  {
    [Whole(second_jump_or_first_mux_2_to_1_out), RegOutAt(31), Whole(JRControl),
     Whole(third_jr_or_second_mux_2_to_1_out)]
  }

  /** The value an argument carries when the signals hold v and the register
      file shows regOut; the clock, reset, file name and memory list carry no
      word. */
  function ArgValue(v: Valuation, regOut: seq<nat>, a: Arg): (r: Option<nat>)
    ensures r.Some? <==> a.Whole? || (a.Field? && a.lo <= a.hi) || (a.RegOutAt? && a.index < |regOut|)
  {
    match a
    case Whole(w) => Some(v(w))
    case Field(hi, lo) => if lo <= hi then Some(Slice(v(IF_ID_instruction), hi, lo)) else None
    case RegOutAt(i) => if i < |regOut| then Some(regOut[i]) else None
    case _ => None
  }

  /** Every word an argument carries fits it: a whole signal its declared
      width, a slice its number of bits, and an element of the register
      observation port a 32-bit word. */
  lemma ArgValueBounds(v: Valuation, regOut: seq<nat>, a: Arg)
    requires WellTyped(v) && RegistersWellTyped(regOut)
    ensures a.Whole? ==> ArgValue(v, regOut, a) == Some(v(a.wire)) && v(a.wire) < Limit(a.wire)
    ensures a.Field? && a.lo <= a.hi ==> ArgValue(v, regOut, a).value < Pow2(a.hi - a.lo)
    ensures a.RegOutAt? && a.index < 32 ==> ArgValue(v, regOut, a).value < WordLimit
  {
  }

  // ----------------------------------------------------------- connections

  /** No argument among args is the whole of w. */
  ghost predicate Absent(w: Wire, args: seq<Arg>)
  {
    Whole(w) !in args
  }

  /** The argument is one of the load-use gate's outputs, h_RegWrite_out or
      h_MemWrite_out (python/CPU.py:188). */
  predicate IsGatedEnable(a: Arg)
  {
    a == Whole(h_RegWrite_out) || a == Whole(h_MemWrite_out)
  }

  /** No position of args holds a gated write enable. */
  predicate FreeOfGatedEnables(args: seq<Arg>)
  {
    forall k :: 0 <= k < |args| ==> !IsGatedEnable(args[k])
  }

  /** The argument is the link constant In3_jal_ra or the select MEM_WB_RegDst
      of the write-back destination multiplexer (python/CPU.py:184). */
  predicate IsLinkSignal(a: Arg)
  {
    a == Whole(In3_jal_ra) || a == Whole(MEM_WB_RegDst)
  }

  /** No position of args holds a link signal. */
  predicate FreeOfLinkSignals(args: seq<Arg>)
  {
    forall k :: 0 <= k < |args| ==> !IsLinkSignal(args[k])
  }

  // Each instance other than the load-use gate, in creation order.
  lemma GatedEnablesScan0()
    ensures FreeOfGatedEnables(pcp4_driverArgs())
    ensures FreeOfGatedEnables(Unit27Args())
    ensures FreeOfGatedEnables(Unit0Args())
    ensures FreeOfGatedEnables(Unit1Args())
    ensures FreeOfGatedEnables(se_driverArgs())
    ensures FreeOfGatedEnables(Unit3Args())
  {
  }

  lemma GatedEnablesScan1()
    ensures FreeOfGatedEnables(Unit4Args())
    ensures FreeOfGatedEnables(Unit5Args())
    ensures FreeOfGatedEnables(Unit25Args())
    ensures FreeOfGatedEnables(Unit28Args())
  {
  }

  lemma GatedEnablesScan2()
    ensures FreeOfGatedEnables(Unit7Args())
    ensures FreeOfGatedEnables(Unit8Args())
    ensures FreeOfGatedEnables(Unit9Args())
  {
  }

  lemma GatedEnablesScan3()
    ensures FreeOfGatedEnables(Unit24Args())
  {
  }

  lemma GatedEnablesScan4()
    ensures FreeOfGatedEnables(Unit11Args())
    ensures FreeOfGatedEnables(Unit12Args())
    ensures FreeOfGatedEnables(Unit13Args())
    ensures FreeOfGatedEnables(Unit14Args())
    ensures FreeOfGatedEnables(Unit15Args())
  {
  }

  lemma GatedEnablesScan5()
    ensures FreeOfGatedEnables(Unit16Args())
    ensures FreeOfGatedEnables(Unit10Args())
    ensures FreeOfGatedEnables(Unit17Args())
  {
  }

  lemma GatedEnablesScan6()
    ensures FreeOfGatedEnables(Unit18Args())
  {
  }

  lemma GatedEnablesScan7()
    ensures FreeOfGatedEnables(Unit19Args())
    ensures FreeOfGatedEnables(Unit26Args())
    ensures FreeOfGatedEnables(Unit20Args())
    ensures FreeOfGatedEnables(branch_checkerArgs())
  {
  }

  lemma GatedEnablesScan8()
    ensures FreeOfGatedEnables(Unit21Args())
    ensures FreeOfGatedEnables(Unit22Args())
    ensures FreeOfGatedEnables(Unit23Args())
  {
  }

  // Each instance other than the write-back destination multiplexer, in creation order.
  lemma LinkSignalsScan0()
    ensures FreeOfLinkSignals(pcp4_driverArgs())
    ensures FreeOfLinkSignals(Unit27Args())
    ensures FreeOfLinkSignals(Unit0Args())
    ensures FreeOfLinkSignals(Unit1Args())
    ensures FreeOfLinkSignals(se_driverArgs())
    ensures FreeOfLinkSignals(Unit3Args())
  {
  }

  lemma LinkSignalsScan1()
    ensures FreeOfLinkSignals(Unit4Args())
    ensures FreeOfLinkSignals(Unit25Args())
    ensures FreeOfLinkSignals(Unit6Args())
    ensures FreeOfLinkSignals(Unit28Args())
  {
  }

  lemma LinkSignalsScan2()
    ensures FreeOfLinkSignals(Unit7Args())
    ensures FreeOfLinkSignals(Unit8Args())
    ensures FreeOfLinkSignals(Unit9Args())
  {
  }

  lemma LinkSignalsScan3()
    ensures FreeOfLinkSignals(Unit24Args())
  {
  }

  lemma LinkSignalsScan4()
    ensures FreeOfLinkSignals(Unit11Args())
    ensures FreeOfLinkSignals(Unit12Args())
    ensures FreeOfLinkSignals(Unit13Args())
    ensures FreeOfLinkSignals(Unit14Args())
    ensures FreeOfLinkSignals(Unit15Args())
  {
  }

  lemma LinkSignalsScan5()
    ensures FreeOfLinkSignals(Unit16Args())
    ensures FreeOfLinkSignals(Unit10Args())
    ensures FreeOfLinkSignals(Unit17Args())
  {
  }

  lemma LinkSignalsScan6()
    ensures FreeOfLinkSignals(Unit18Args())
  {
  }

  lemma LinkSignalsScan7()
    ensures FreeOfLinkSignals(Unit19Args())
    ensures FreeOfLinkSignals(Unit26Args())
    ensures FreeOfLinkSignals(Unit20Args())
    ensures FreeOfLinkSignals(branch_checkerArgs())
  {
  }

  lemma LinkSignalsScan8()
    ensures FreeOfLinkSignals(Unit21Args())
    ensures FreeOfLinkSignals(Unit22Args())
    ensures FreeOfLinkSignals(Unit23Args())
  {
  }


  // ------------------------------------------------ signals that go nowhere

  /** The load-use gate's outputs go nowhere (python/CPU.py:188, 198): they
      are the gate's fourth and fifth arguments and every other instance is
      free of them, while ID/EX is given the decoder's ungated RegWrite and
      MemWrite. Together with StallGateBypassed: during a load-use stall
      ID/EX still receives a raised enable; it is also given the stall
      signal ID_Flush_lwstall itself, as its third argument, so what it
      latches then is up to its own body. */
  lemma GatedEnablesUnconsumed()
    ensures Block(Unit6) == "hazard_stall_mux_2_to_1"
    ensures forall u: Unit :: u != Unit6 ==> FreeOfGatedEnables(Args(u))
    ensures Unit6Args()[3] == Whole(h_RegWrite_out) && Unit6Args()[4] == Whole(h_MemWrite_out)
    ensures Unit24Args()[8] == Whole(RegWrite) && Unit24Args()[6] == Whole(MemWrite)
    ensures Unit24Args()[2] == Whole(ID_Flush_lwstall) && Unit6Args()[2] == Whole(ID_Flush_lwstall)
  {
    GatedEnablesScan0();
    GatedEnablesScan1();
    GatedEnablesScan2();
    GatedEnablesScan3();
    GatedEnablesScan4();
    GatedEnablesScan5();
    GatedEnablesScan6();
    GatedEnablesScan7();
    GatedEnablesScan8();
  }

  /** The write-back destination multiplexer (python/CPU.py:184) is the only
      instance given the link constant In3_jal_ra or the select MEM_WB_RegDst:
      no other block reads either, and none drives them, so mem_wb
      (python/CPU.py:223), which latches the other MEM/WB signals, leaves
      MEM_WB_RegDst at its initial 0 and In3_jal_ra keeps its initial 31.
      With WriteBackDestinationAtRest the link register is never selected. */
  lemma LinkSelectUnlatched()
    ensures Block(Unit5) == "regDst_mux_2_to_1"
    ensures Unit5Args()[2] == Whole(MEM_WB_RegDst) && Unit5Args()[1] == Whole(In3_jal_ra)
    ensures forall u: Unit :: u != Unit5 ==> FreeOfLinkSignals(Args(u))
    ensures InitialValue(MEM_WB_RegDst) == 0 && InitialValue(In3_jal_ra) == 31
  {
    LinkSignalsScan0();
    LinkSignalsScan1();
    LinkSignalsScan2();
    LinkSignalsScan3();
    LinkSignalsScan4();
    LinkSignalsScan5();
    LinkSignalsScan6();
    LinkSignalsScan7();
    LinkSignalsScan8();
  }

  /** ID/EX latches ALUSrc and the sign-extended immediate into ID_EX_ALUSrc
      and ID_EX_immi_sign_extended (python/CPU.py:198), and the execute-stage
      multiplexer is given neither latched copy. */
  lemma LatchedOperandControls()
    ensures Unit24Args()[9] == Whole(ALUSrc) && Unit24Args()[28] == Whole(ID_EX_ALUSrc)
    ensures Unit24Args()[18] == Whole(immi_sign_extended) && Unit24Args()[37] == Whole(ID_EX_immi_sign_extended)
  {
  }

  // --------------------------------------------------- stage-mixing quirks

  /** The ALUSrc multiplexer of the execute stage (python/CPU.py:211) is
      given the decode-stage immediate and ALUSrc, not their ID/EX copies. */
  lemma AluSrcMuxReadsDecodeStage()
    ensures Unit16Args()[1] == Whole(immi_sign_extended) && Unit16Args()[2] == Whole(ALUSrc)
    ensures StageOf(immi_sign_extended) == Some(ID) && StageOf(ALUSrc) == Some(ID)
    ensures StageOf(ID_EX_immi_sign_extended) == Some(EX) && StageOf(ID_EX_ALUSrc) == Some(EX)
    ensures Absent(ID_EX_immi_sign_extended, Unit16Args()) && Absent(ID_EX_ALUSrc, Unit16Args())
  {
  }

  /** isBranch (python/CPU.py:226) is given the execute-stage ALU_zero and the
      decode-stage Branch, although ID/EX is given Branch and produces
      ID_EX_Branch. The two are paired by name, not by position: ID/EX's
      inputs and outputs do not come in the same order. */
  lemma BranchCheckMixesStages()
    ensures branch_checkerArgs()[0] == Whole(ALU_zero) && branch_checkerArgs()[1] == Whole(Branch)
    ensures StageOf(ALU_zero) == Some(EX) && StageOf(Branch) == Some(ID)
    ensures Unit24Args()[4] == Whole(Branch) && Unit24Args()[24] == Whole(ID_EX_Branch)
    ensures Absent(ID_EX_Branch, branch_checkerArgs())
  {
  }

  /** Both forwarding multiplexers (python/CPU.py:207, 209) take their EX/MEM
      input from EX_MEM_reg_read_data_2, the store data that ex_mem latches
      from the forwarded second operand, not from the latched ALU result. */
  lemma ForwardSourceIsStoreData()
    ensures Unit14Args()[1] == Whole(EX_MEM_reg_read_data_2) && Unit15Args()[1] == Whole(EX_MEM_reg_read_data_2)
    ensures Unit18Args()[13] == Whole(second_alu_mux_3_to_1_out) && Unit18Args()[26] == Whole(EX_MEM_reg_read_data_2)
    ensures Unit18Args()[12] == Whole(ALU_result) && Unit18Args()[25] == Whole(EX_MEM_ALU_result)
    ensures Absent(EX_MEM_ALU_result, Unit14Args()) && Absent(EX_MEM_ALU_result, Unit15Args())
  {
  }

  /** The last redirect multiplexer (python/CPU.py:232) is given element 31 of
      the register file's observation list, which is register 31's value,
      and not the execute stage's rs operand. */
  lemma JrTargetIsRegisterThirtyOne(v: Valuation, regOut: seq<nat>)
    requires RegistersWellTyped(regOut)
    ensures Unit23Args()[1] == RegOutAt(31) && ArgValue(v, regOut, Unit23Args()[1]) == Some(regOut[31])
    ensures Unit7Args()[9] == RegOut
    ensures Absent(ID_EX_reg_read_data_1, Unit23Args())
  {
  }

  // ------------------------------------------------------ forwarding unit

  /** The port order the comment above the forwarding unit gives
      (python/CPU.py:204): rs, rt, EX/MEM rd, EX/MEM write enable, MEM/WB rd,
      MEM/WB write enable, then the two selects. */
  function ForwardingPortOrder(): seq<Arg>
  {
    [Whole(ID_EX_RegisterRs), Whole(ID_EX_RegisterRt), Whole(EX_MEM_RegisterRd), Whole(EX_MEM_RegWrite),
     Whole(MEM_WB_RegisterRd), Whole(MEM_WB_RegWrite), Whole(ForwardA), Whole(ForwardB)]
  }

  /** The forwarding unit is given the same eight signals as its comment
      lists, but the EX/MEM write enable comes after the MEM/WB pair
      (python/CPU.py:204-205): if the ports follow the comment, the fourth
      port (a 1-bit enable) receives a 5-bit register number and the fifth
      (a 5-bit register number) a 1-bit enable. */
  lemma ForwardingArgumentOrder()
    ensures var c := ForwardingPortOrder();
      Unit13Args() == c[..3] + c[4..6] + [c[3]] + c[6..]
    ensures Width(Unit13Args()[3].wire) == 5 && Width(ForwardingPortOrder()[3].wire) == 1
    ensures Width(Unit13Args()[4].wire) == 1 && Width(ForwardingPortOrder()[4].wire) == 5
  {
    var c := ForwardingPortOrder();
    assert c[..3] + c[4..6] + [c[3]] + c[6..] == [c[0], c[1], c[2], c[4], c[5], c[3], c[6], c[7]];
  }

  /** Hence the forwarding unit is given exactly the signals its comment
      lists, each once, only not in that order. */
  lemma ForwardingArgumentsPermuted()
    ensures multiset(Unit13Args()) == multiset(ForwardingPortOrder())
    ensures Unit13Args() != ForwardingPortOrder()
  {
    var c := ForwardingPortOrder();
    ForwardingArgumentOrder();
    assert c == c[..3] + [c[3]] + c[4..6] + c[6..];
  }

  // ------------------------------------------- instruction fields in place

  /** Every slice the CPU block takes of IF_ID_instruction carries the field
      Extract names: the opcode to the control unit, rs and rt to the hazard
      unit, the register file and ID/EX, rd and funct to ID/EX, and bits 16..0
      to the sign extender (python/CPU.py:177, 182, 186, 192, 198). */
  lemma SlicesCarryFields(v: Valuation, regOut: seq<nat>)
    ensures var f := Extract(v(IF_ID_instruction));
      ArgValue(v, regOut, Unit4Args()[0]) == Some(f.opcode) &&
      ArgValue(v, regOut, Unit25Args()[2]) == Some(f.rs) &&
      ArgValue(v, regOut, Unit25Args()[3]) == Some(f.rt) &&
      ArgValue(v, regOut, Unit7Args()[3]) == Some(f.rs) &&
      ArgValue(v, regOut, Unit7Args()[4]) == Some(f.rt) &&
      ArgValue(v, regOut, Unit24Args()[19]) == Some(f.rs) &&
      ArgValue(v, regOut, Unit24Args()[20]) == Some(f.rt) &&
      ArgValue(v, regOut, Unit24Args()[21]) == Some(f.rd) &&
      ArgValue(v, regOut, Unit24Args()[22]) == Some(f.funct) &&
      ArgValue(v, regOut, se_driverArgs()[0]) == Some(f.signExtendIn)
  {
  }

  // ----------------------------------------- multiplexers and the Datapath

  /** A 2-to-1 multiplexer instance given args = (first, second, select, out)
      has settled: out carries the input its select picks. */
  ghost predicate Mux2Settled(v: Valuation, regOut: seq<nat>, args: seq<Arg>)
  {
    |args| == 4 &&
    var first, second, select := ArgValue(v, regOut, args[0]), ArgValue(v, regOut, args[1]), ArgValue(v, regOut, args[2]);
    first.Some? && second.Some? && select.Some? &&
    ArgValue(v, regOut, args[3]) == Mux2Wide(first.value, second.value, select.value)
  }

  /** A 3-to-1 multiplexer instance given args = (first, second, third,
      select, out) has settled: out carries the input its select picks. */
  ghost predicate Mux3Settled(v: Valuation, args: seq<Arg>)
  {
    |args| == 5 &&
    var first, second, third, select :=
      ArgValue(v, [], args[0]), ArgValue(v, [], args[1]), ArgValue(v, [], args[2]), ArgValue(v, [], args[3]);
    first.Some? && second.Some? && third.Some? && select.Some? &&
    ArgValue(v, [], args[4]) == Mux3(first.value, second.value, third.value, select.value)
  }

  /** The four multiplexers of the next-PC chain (python/CPU.py:169, 228-232),
      once settled, compute RedirectTarget and PcIn. */
  lemma NextPcWiring(v: Valuation, regOut: seq<nat>)
    requires WellTyped(v) && RegistersWellTyped(regOut)
    requires Mux2Settled(v, regOut, Unit21Args()) && Mux2Settled(v, regOut, Unit22Args())
    requires Mux2Settled(v, regOut, Unit23Args()) && Mux2Settled(v, regOut, Unit27Args())
    ensures v(third_jr_or_second_mux_2_to_1_out) == RedirectTarget(v, regOut)
    ensures v(PC_in) == PcIn(v, regOut)
  {
  }

  /** The forwarding and ALUSrc multiplexers (python/CPU.py:207-211), once
      settled, compute the operands: the ALU is given AluOperandA and
      AluOperandB, and ex_mem the forwarded second operand. */
  lemma OperandWiring(v: Valuation)
    requires WellTyped(v)
    requires Mux3Settled(v, Unit14Args()) && Mux3Settled(v, Unit15Args()) && Mux2Settled(v, [], Unit16Args())
    ensures AluOperandA(v) == Some(v(first_alu_mux_3_to_1_out))
    ensures ForwardedB(v) == Some(v(second_alu_mux_3_to_1_out))
    ensures AluOperandB(v) == Some(v(third_alu_mux_2_to_1_out))
    ensures Unit10Args()[2] == Whole(first_alu_mux_3_to_1_out) && Unit10Args()[3] == Whole(third_alu_mux_2_to_1_out)
  {
  }

  /** The destination and write-back multiplexers (python/CPU.py:184, 190,
      215), once settled, compute ExMemDestination, WriteBackDestination and
      WriteBackData; the register file is given the last two as its write
      data and write register. */
  lemma DestinationWiring(v: Valuation)
    requires WellTyped(v)
    requires Mux2Settled(v, [], Unit17Args()) && Mux2Settled(v, [], Unit5Args()) && Mux3Settled(v, Unit28Args())
    ensures ExMemDestination(v) == Some(v(idEx_to_exMem_mux_2_to_1_out))
    ensures WriteBackDestination(v) == Some(v(regDst_mux_2_to_1_out))
    ensures WriteBackData(v) == Some(v(writeback_source_mux_3_to_1_out))
    ensures Unit7Args()[2] == Whole(writeback_source_mux_3_to_1_out) && Unit7Args()[5] == Whole(regDst_mux_2_to_1_out)
  {
  }

  /** The load-use gate instance (python/CPU.py:188), given args = (RegWrite,
      MemWrite, stall, gated RegWrite, gated MemWrite), has settled: with the
      stall raised both outputs are 0, otherwise they copy the inputs. */
  ghost predicate StallMuxSettled(v: Valuation, args: seq<Arg>)
  {
    |args| == 5 &&
    var regWrite, memWrite, stall := ArgValue(v, [], args[0]), ArgValue(v, [], args[1]), ArgValue(v, [], args[2]);
    regWrite.Some? && memWrite.Some? && stall.Some? &&
    ArgValue(v, [], args[3]) == Some(if stall.value == 1 then 0 else regWrite.value) &&
    ArgValue(v, [], args[4]) == Some(if stall.value == 1 then 0 else memWrite.value)
  }

  /** Once settled, the gate's outputs are StallGate, and ID/EX is given
      IdExWriteEnables. */
  lemma StallWiring(v: Valuation)
    requires WellTyped(v) && StallMuxSettled(v, Unit6Args())
    ensures StallGate(v) == WriteEnables(v(h_RegWrite_out), v(h_MemWrite_out))
    ensures ArgValue(v, [], Unit24Args()[8]) == Some(IdExWriteEnables(v).regWrite)
    ensures ArgValue(v, [], Unit24Args()[6]) == Some(IdExWriteEnables(v).memWrite)
  {
  }

  /** The two decoder instances (python/CPU.py:201, 203), given alu and jr,
      each (class, funct, out), have settled: alu_control drives the code of the decoded
      operation when there is one, JR_Control drives the flag. */
  ghost predicate DecodersSettled(v: Valuation, alu: seq<Arg>, jr: seq<Arg>)
  {
    |alu| == 3 && |jr| == 3 &&
    var aluOp, funct := ArgValue(v, [], alu[0]), ArgValue(v, [], alu[1]);
    aluOp.Some? && funct.Some? &&
    (AluControl(aluOp.value, funct.value).Some? ==>
       ArgValue(v, [], alu[2]) == Some(Code(AluControl(aluOp.value, funct.value).value))) &&
    ArgValue(v, [], jr[0]) == aluOp && ArgValue(v, [], jr[1]) == funct &&
    ArgValue(v, [], jr[2]) == Some(JrControl(aluOp.value, funct.value))
  }

  /** Once settled, JRControl is JrFlag and, where the class and funct decode,
      out_to_ALU is AluCode. */
  lemma DecoderWiring(v: Valuation)
    requires WellTyped(v) && DecodersSettled(v, Unit11Args(), Unit12Args())
    ensures v(JRControl) == JrFlag(v)
    ensures AluCode(v).Some? ==> AluCode(v) == Some(v(out_to_ALU))
  {
  }
}
