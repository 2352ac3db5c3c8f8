/** The combinational selections wired by the CPU block (python/CPU.py): the
    next-PC multiplexer chain, the forwarding and ALUSrc operand
    multiplexers, the destination-register and write-back multiplexers, the
    load-use gating of the write enables and the two execute-stage decoders.
    Each reads the signal values of one instant; the outputs of the units
    defined in the modules the CPU block imports (hazard unit, forwarding
    unit, isBranch, flush unit, pipeline registers, branch and jump
    calculators) are simply signal values in that valuation. */
module Datapath {
  import opened Bits
  import opened Wrappers
  import opened Wires
  import opened AluDecoder

  /** A 2-to-1 multiplexer with a 1-bit select: 1 picks the second data input. */
  function Mux2(first: nat, second: nat, select: nat): nat
    requires select <= 1
  {
    if select == 1 then second else first
  }

  /** A 2-to-1 multiplexer whose select is a 2-bit signal: 0 and 1 pick the
      first and second data input; 2 and 3 select nothing. */
  function Mux2Wide(first: nat, second: nat, select: nat): Option<nat>
  {
    if select == 0 then Some(first)
    else if select == 1 then Some(second)
    else None
  }

  /** A 3-to-1 multiplexer with a 2-bit select: 0, 1, 2 pick the first,
      second, third data input; 3 selects nothing. */
  function Mux3(first: nat, second: nat, third: nat, select: nat): Option<nat>
  {
    if select == 0 then Some(first)
    else if select == 1 then Some(second)
    else if select == 2 then Some(third)
    else None
  }

  /** The register file's observation port `regOut`: one word per register. */
  ghost predicate RegistersWellTyped(regOut: seq<nat>)
  {
    |regOut| == 32 && forall i :: 0 <= i < 32 ==> regOut[i] < WordLimit
  }

  // ---------------------------------------------------------------- next PC

  /** The redirect chain of python/CPU.py:228-232: the jump-register flag
      wins and selects register 31 of `regOut`; else the decode-stage Jump
      selects Jump_Address; else branch_taken selects BTA; else the execute
      stage's PC+4 passes through. */
  function RedirectTarget(v: Valuation, regOut: seq<nat>): (target: nat)
    requires WellTyped(v) && RegistersWellTyped(regOut)
    ensures target < WordLimit
    ensures v(JRControl) == 1 ==> target == regOut[31]
    ensures v(JRControl) == 0 && v(Jump) == 1 ==> target == v(Jump_Address)
    ensures v(JRControl) == 0 && v(Jump) == 0 && v(branch_taken) == 1 ==> target == v(BTA)
    ensures v(JRControl) == 0 && v(Jump) == 0 && v(branch_taken) == 0 ==> target == v(ID_EX_PC_plus4)
  {
    assert v(JRControl) < 2 && v(Jump) < 2 && v(branch_taken) < 2;
    var first := Mux2(v(ID_EX_PC_plus4), v(BTA), v(branch_taken));
    var second := Mux2(first, v(Jump_Address), v(Jump));
    Mux2(second, regOut[31], v(JRControl))
  }

  /** The PC input multiplexer of python/CPU.py:169: PC_plus4 unless the flush
      unit reports a taken branch or jump, in which case the redirect chain. */
  function PcIn(v: Valuation, regOut: seq<nat>): (next: nat)
    requires WellTyped(v) && RegistersWellTyped(regOut)
    ensures next < WordLimit
    ensures v(branch_or_jump_taken) == 0 ==> next == v(PC_plus4)
    ensures v(branch_or_jump_taken) == 1 ==> next == RedirectTarget(v, regOut)
  {
    assert v(branch_or_jump_taken) < 2 && v(PC_plus4) < WordLimit;
    Mux2(v(PC_plus4), RedirectTarget(v, regOut), v(branch_or_jump_taken))
  }

  /** The jump-register target is register 31 whatever the rs operand holds:
      changing its decode-stage read, its ID/EX copy or the forwarded operand
      A never changes the redirect. */
  lemma RedirectIgnoresRsOperand(v: Valuation, v': Valuation, regOut: seq<nat>)
    requires WellTyped(v) && WellTyped(v') && RegistersWellTyped(regOut)
    requires AgreeExcept(v, v', {reg_read_data_1, ID_EX_reg_read_data_1, first_alu_mux_3_to_1_out})
    ensures RedirectTarget(v, regOut) == RedirectTarget(v', regOut)
  {
  }

  // ------------------------------------------------------------ ALU operands

  /** Operand A (python/CPU.py:207): ForwardA picks the ID/EX register value,
      the EX/MEM store-data value or the MEM/WB memory data. */
  function AluOperandA(v: Valuation): (a: Option<nat>)
    requires WellTyped(v)
    ensures a.Some? <==> v(ForwardA) != 3
    ensures a.Some? ==> a.value < WordLimit
    ensures v(ForwardA) == 0 ==> a == Some(v(ID_EX_reg_read_data_1))
    ensures v(ForwardA) == 1 ==> a == Some(v(EX_MEM_reg_read_data_2))
    ensures v(ForwardA) == 2 ==> a == Some(v(MEM_WB_D_MEM_read_data))
  {
    assert v(ForwardA) < 4 && v(ID_EX_reg_read_data_1) < WordLimit;
    assert v(EX_MEM_reg_read_data_2) < WordLimit && v(MEM_WB_D_MEM_read_data) < WordLimit;
    Mux3(v(ID_EX_reg_read_data_1), v(EX_MEM_reg_read_data_2), v(MEM_WB_D_MEM_read_data), v(ForwardA))
  }

  /** The forwarded second register operand (python/CPU.py:209), which ex_mem
      also latches as the store data: ForwardB picks the ID/EX register value,
      the EX/MEM store-data value or the MEM/WB memory data. */
  function ForwardedB(v: Valuation): (b: Option<nat>)
    requires WellTyped(v)
    ensures b.Some? <==> v(ForwardB) != 3
    ensures b.Some? ==> b.value < WordLimit
    ensures v(ForwardB) == 0 ==> b == Some(v(ID_EX_reg_read_data_2))
    ensures v(ForwardB) == 1 ==> b == Some(v(EX_MEM_reg_read_data_2))
    ensures v(ForwardB) == 2 ==> b == Some(v(MEM_WB_D_MEM_read_data))
  {
    assert v(ForwardB) < 4 && v(ID_EX_reg_read_data_2) < WordLimit;
    assert v(EX_MEM_reg_read_data_2) < WordLimit && v(MEM_WB_D_MEM_read_data) < WordLimit;
    Mux3(v(ID_EX_reg_read_data_2), v(EX_MEM_reg_read_data_2), v(MEM_WB_D_MEM_read_data), v(ForwardB))
  }

  /** Operand B (python/CPU.py:211): the decode-stage ALUSrc replaces the
      forwarded operand by the decode-stage sign-extended immediate. */
  function AluOperandB(v: Valuation): (b: Option<nat>)
    requires WellTyped(v)
    ensures v(ALUSrc) == 1 ==> b == Some(v(immi_sign_extended))
    ensures v(ALUSrc) == 0 ==> b == ForwardedB(v)
    ensures b.Some? ==> b.value < WordLimit
  {
    assert v(ALUSrc) < 2;
    var forwarded := ForwardedB(v);
    if v(ALUSrc) == 1 then Some(v(immi_sign_extended))
    else forwarded
  }

  /** Neither operand ever carries an ALU result, of this cycle or latched in
      EX/MEM: valuations that differ only there give the same operands. */
  lemma OperandsIgnoreAluResults(v: Valuation, v': Valuation)
    requires WellTyped(v) && WellTyped(v')
    requires AgreeExcept(v, v', {ALU_result, EX_MEM_ALU_result})
    ensures AluOperandA(v) == AluOperandA(v')
    ensures AluOperandB(v) == AluOperandB(v')
  {
  }

  /** Operand B ignores the execute-stage copies of ALUSrc and of the
      immediate that ID/EX latches. */
  lemma OperandBIgnoresLatchedControls(v: Valuation, v': Valuation)
    requires WellTyped(v) && WellTyped(v')
    requires AgreeExcept(v, v', {ID_EX_ALUSrc, ID_EX_immi_sign_extended})
    ensures AluOperandB(v) == AluOperandB(v')
  {
  }

  // ------------------------------------------------ destinations and write-back

  /** The destination latched into EX/MEM (python/CPU.py:215): ID_EX_RegDst 0
      picks rd, 1 picks rt. */
  function ExMemDestination(v: Valuation): (d: Option<nat>)
    requires WellTyped(v)
    ensures d.Some? <==> v(ID_EX_RegDst) <= 1
    ensures d.Some? ==> d.value < 32
    ensures v(ID_EX_RegDst) == 0 ==> d == Some(v(ID_EX_RegisterRd))
    ensures v(ID_EX_RegDst) == 1 ==> d == Some(v(ID_EX_RegisterRt))
  {
    assert v(ID_EX_RegDst) < 4 && v(ID_EX_RegisterRd) < 32 && v(ID_EX_RegisterRt) < 32;
    Mux2Wide(v(ID_EX_RegisterRd), v(ID_EX_RegisterRt), v(ID_EX_RegDst))
  }

  /** The register written back (python/CPU.py:184): MEM_WB_RegDst 0 picks
      MEM_WB_RegisterRd, 1 picks the link constant In3_jal_ra. */
  function WriteBackDestination(v: Valuation): (d: Option<nat>)
    requires WellTyped(v)
    ensures d.Some? <==> v(MEM_WB_RegDst) <= 1
    ensures d.Some? ==> d.value < 32
    ensures v(MEM_WB_RegDst) == 0 ==> d == Some(v(MEM_WB_RegisterRd))
    ensures v(MEM_WB_RegDst) == 1 ==> d == Some(v(In3_jal_ra))
  {
    assert v(MEM_WB_RegDst) < 4 && v(MEM_WB_RegisterRd) < 32 && v(In3_jal_ra) < 32;
    Mux2Wide(v(MEM_WB_RegisterRd), v(In3_jal_ra), v(MEM_WB_RegDst))
  }

  /** While MEM_WB_RegDst keeps its initial value, as it does when nothing
      drives it, the write-back destination is MEM_WB_RegisterRd and never the
      link register. */
  lemma WriteBackDestinationAtRest(v: Valuation)
    requires WellTyped(v) && v(MEM_WB_RegDst) == InitialValue(MEM_WB_RegDst)
    ensures WriteBackDestination(v) == Some(v(MEM_WB_RegisterRd))
  {
  }

  /** While the link constant In3_jal_ra keeps its initial value, a select of
      1 makes register 31 the write-back destination, the link register of a
      jump-and-link. */
  lemma LinkDestinationAtRest(v: Valuation)
    requires WellTyped(v) && v(In3_jal_ra) == InitialValue(In3_jal_ra)
    requires v(MEM_WB_RegDst) == 1
    ensures WriteBackDestination(v) == Some(31)
  {
  }

  /** The write-back data (python/CPU.py:190): MEM_WB_MemtoReg 0 picks the ALU
      result latched as MEM_WB_D_MEM_read_addr, 1 the memory data, 2 the
      return address MEM_WB_PC_plus_4. */
  function WriteBackData(v: Valuation): (d: Option<nat>)
    requires WellTyped(v)
    ensures d.Some? <==> v(MEM_WB_MemtoReg) != 3
    ensures d.Some? ==> d.value < WordLimit
    ensures v(MEM_WB_MemtoReg) == 0 ==> d == Some(v(MEM_WB_D_MEM_read_addr))
    ensures v(MEM_WB_MemtoReg) == 1 ==> d == Some(v(MEM_WB_D_MEM_read_data))
    ensures v(MEM_WB_MemtoReg) == 2 ==> d == Some(v(MEM_WB_PC_plus_4))
  {
    assert v(MEM_WB_MemtoReg) < 4;
    Mux3(v(MEM_WB_D_MEM_read_addr), v(MEM_WB_D_MEM_read_data), v(MEM_WB_PC_plus_4), v(MEM_WB_MemtoReg))
  }

  // --------------------------------------------------------- load-use gating

  /** A register-write and a memory-write enable. */
  datatype WriteEnables = WriteEnables(regWrite: nat, memWrite: nat)

  /** The hazard-stall gate (python/CPU.py:188): during a load-use stall both
      enables are cleared, otherwise the decoder's enables pass through. */
  function StallGate(v: Valuation): (e: WriteEnables)
    requires WellTyped(v)
    ensures e.regWrite <= 1 && e.memWrite <= 1
    ensures v(ID_Flush_lwstall) == 1 ==> e == WriteEnables(0, 0)
    ensures v(ID_Flush_lwstall) == 0 ==> e == WriteEnables(v(RegWrite), v(MemWrite))
  {
    assert v(ID_Flush_lwstall) < 2 && v(RegWrite) < 2 && v(MemWrite) < 2;
    WriteEnables(Mux2(v(RegWrite), 0, v(ID_Flush_lwstall)), Mux2(v(MemWrite), 0, v(ID_Flush_lwstall)))
  }

  /** The enables that ID/EX latches (python/CPU.py:198): the decoder's own,
      not the gated ones. */
  function IdExWriteEnables(v: Valuation): (e: WriteEnables)
    requires WellTyped(v)
    ensures e.regWrite <= 1 && e.memWrite <= 1
  {
    assert v(RegWrite) < 2 && v(MemWrite) < 2;
    WriteEnables(v(RegWrite), v(MemWrite))
  }

  /** During a load-use stall ID/EX still receives a raised enable that the
      gate has cleared: the gate's outputs do not reach the pipeline. */
  lemma StallGateBypassed(v: Valuation)
    requires WellTyped(v) && v(ID_Flush_lwstall) == 1
    requires v(RegWrite) == 1 || v(MemWrite) == 1
    ensures StallGate(v) == WriteEnables(0, 0)
    ensures IdExWriteEnables(v) != StallGate(v)
  {
  }

  /** Outside a stall the gate and ID/EX agree. */
  lemma StallGateTransparent(v: Valuation)
    requires WellTyped(v) && v(ID_Flush_lwstall) == 0
    ensures IdExWriteEnables(v) == StallGate(v)
  {
  }

  // ------------------------------------------------- execute-stage decoders

  /** The ALU operation code (python/CPU.py:201), from the execute stage's
      ALU-op class and function field; it fits the 2-bit out_to_ALU signal. */
  function AluCode(v: Valuation): (c: Option<nat>)
    requires WellTyped(v)
    ensures c.Some? <==> AluControl(v(ID_EX_ALUOp), v(ID_EX_funct)).Some?
    ensures c.Some? ==> c.value < Limit(out_to_ALU) && c.value <= 2
  {
    match AluControl(v(ID_EX_ALUOp), v(ID_EX_funct))
    case Some(op) => Some(Code(op))
    case None => None
  }

  /** The jump-register flag (python/CPU.py:203), from the same two signals;
      it fits the 1-bit JRControl signal and is defined even where the ALU
      code is not. */
  function JrFlag(v: Valuation): (flag: nat)
    requires WellTyped(v)
    ensures flag < Limit(JRControl)
    ensures flag == 1 <==> v(ID_EX_ALUOp) == 0 && v(ID_EX_funct) == 8
  {
    JrControl(v(ID_EX_ALUOp), v(ID_EX_funct))
  }

  // ------------------------------------------------------------ construction

  /** On the construction values the PC-input multiplexer selects
      PC_plus4 = 4, while the signal PC_in it drives starts at 0: the
      construction values are not settled there. */
  lemma PcAtConstruction(regOut: seq<nat>)
    requires RegistersWellTyped(regOut)
    ensures PcIn(Initial(), regOut) == 4
    ensures Initial()(PC_in) == 0
  {
    var v := Initial();
    assert v(branch_or_jump_taken) == 0 && v(PC_plus4) == 4;
  }

  /** Right after construction operand A comes from the ID/EX register
      value, which starts at 0. */
  lemma OperandAAtConstruction()
    ensures AluOperandA(Initial()) == Some(0)
  {
    var v := Initial();
    assert v(ForwardA) == 0 && v(ID_EX_reg_read_data_1) == 0;
  }

  /** Right after construction operand B is the forwarded ID/EX register
      value, which starts at 0, not the immediate. */
  lemma OperandBAtConstruction()
    ensures AluOperandB(Initial()) == Some(0)
  {
    var v := Initial();
    assert v(ALUSrc) == 0;
    assert ForwardedB(v) == Some(0) by {
      assert v(ForwardB) == 0 && v(ID_EX_reg_read_data_2) == 0;
    }
  }

  /** Right after construction the write-back destination is MEM_WB_RegisterRd,
      which starts at 0. */
  lemma WriteBackAtConstruction()
    ensures WriteBackDestination(Initial()) == Some(0)
  {
    var v := Initial();
    assert v(MEM_WB_RegDst) == 0 && v(MEM_WB_RegisterRd) == 0;
  }

  /** Right after construction the execute-stage decoders see class 0 and
      function 0: the ALU is told to add and the jump-register flag is low. */
  lemma DecodersAtConstruction()
    ensures AluCode(Initial()) == Some(Code(Add)) && JrFlag(Initial()) == 0
  {
    var v := Initial();
    assert v(ID_EX_ALUOp) == 0 && v(ID_EX_funct) == 0;
  }
}
