# MIPS-CPU: the combinational core of the five-stage pipeline

This project models the combinational part of the MyHDL five-stage MIPS CPU that two
files define.

- `python/ALU_Control.py`: two decoders.
  - `ALU_Control` maps an ALU-op class and a function field to an ALU operation.
  - `JR_Control` raises the jump-register flag.
- `python/CPU.py`: the wiring of the `CPU` block, which the model covers in these parts:
  - every declared signal, with its width and initial value (module `Wires`);
  - the instruction-field slices (module `InstructionFields`);
  - every block instance and the arguments it is given, in positional order (module `Netlist`);
  - the selections those instances compute (module `Datapath`):
    - the next-PC chain: jump register, then jump, then branch, then PC+4;
    - the forwarding and ALUSrc operand multiplexers;
    - the destination-register and write-back multiplexers;
    - the load-use gating of the write enables.

A signal is a constructor of `Wires.Wire`. A `Valuation` gives every signal a value at one
instant, and `WellTyped` says each value fits the signal's declared width.

The blocks whose bodies live in the modules `python/CPU.py` imports (lines 8-31) are free
inputs: their outputs are simply signal values in the valuation. Those modules are not part of
this model. The blocks are the hazard unit, the forwarding unit, `isBranch`, the flush unit, the
four pipeline registers, and the branch and jump calculators, among others.

A 2-to-1 multiplexer picks its second data input when its select is 1. A 3-to-1 multiplexer
picks input 0, 1 or 2. A select value the multiplexer does not decode gives `None`: select 3
of a 3-to-1 multiplexer, or select 2 or 3 of a 2-to-1 multiplexer driven by a 2-bit signal.

The model keeps these wiring peculiarities exactly as written:

- The EX/MEM forward source is `EX_MEM_reg_read_data_2`, not the latched ALU result.
- The jump-register target is `regOut[31]`.
- `isBranch` mixes the decode-stage `Branch` with the execute-stage `ALU_zero`.
- The ALUSrc multiplexer reads the decode-stage immediate and `ALUSrc`.
- ID/EX is given the ungated `RegWrite` and `MemWrite`, and the gated copies reach no instance. ID/EX is also given the stall signal `ID_Flush_lwstall` itself, at its third port.
- The forwarding unit's arguments come in an order that differs from the comment above it.

Files:

- `wrappers.dfy`: the `Option` type.
- `bits.dfy`: powers of two and MyHDL slicing.
- `alu_control.dfy`: module `AluDecoder`.
- `wires.dfy`, `fields.dfy`, `datapath.dfy`, `netlist.dfy`: the four `CPU.py` modules named above.

Two points where the code departs from MIPS, kept as written:

- MIPS encodes `jr` as an R-type instruction with function 8. The code raises the
  jump-register flag for ALU-op class 0 with function 8 (`python/ALU_Control.py:34`),
  not for the R-type class 4. `AluDecoder.RTypeJrNotFlagged` records that the pair
  (4, 8) raises no flag.
- MIPS `jr` jumps to the value of register rs. The last redirect multiplexer is given
  `regOut[31]` (`python/CPU.py:232`), where `regOut` is the register file's observation
  port passed to `RegisterFile` at `python/CPU.py:192`. The model reads `regOut[31]` as the
  value of register 31, not as bit 31 of one word, so the target is register 31 whatever rs is.

## Model

| member | source | states |
|---|---|---|
| AluDecoder.Code | python/ALU_Control.py:8-28 | every ALU code the decoder produces is 0, 1 or 2, so it fits the 2-bit `out_to_ALU` signal |
| AluDecoder.CodeInjective | python/ALU_Control.py:20-28 | distinct operations are driven as distinct codes |
| AluDecoder.AluControl | python/ALU_Control.py:8-28 | a code is produced exactly for classes 0..3, or class 4 with funct 0, 2 or 6 (all other pairs are a decode failure); classes 0 and 2 add and classes 1 and 3 subtract, whatever funct is |
| AluDecoder.JrControl | python/ALU_Control.py:32-37 | the flag is 0 or 1; it is 1 if and only if the class is 0 and funct is 8; it is defined for every input |
| AluDecoder.FunctIgnoredOutsideRType | python/ALU_Control.py:8-18 | outside class 4, changing funct never changes the decode |
| AluDecoder.RTypeDecodeIff | python/ALU_Control.py:20-28 | under class 4, funct decodes to an operation exactly when it is that operation's encoding (0 add, 2 subtract, 6 and), in both directions |
| AluDecoder.JrFlagImpliesAdd | python/ALU_Control.py:8-37 | a raised jump-register flag always comes with the add operation |
| AluDecoder.RTypeJrNotFlagged | python/ALU_Control.py:20-37 | the R-type pair (4, 8) raises no flag and has no ALU operation |
| AluDecoder.JrFlagNotDeterminedByOperation | python/ALU_Control.py:4-37 | two inputs with the same operation (add) can differ in the flag, so the flag is not a function of the chosen operation |
| Bits.Slice | python/CPU.py:177-198 | the MyHDL slice `x(hi, lo)` lies below 2^(hi-lo) |
| InstructionFields.Extract | python/CPU.py:177-198 | opcode and funct are below 64; rs, rt and rd are below 32; the sign-extender input is below 2^17 |
| InstructionFields.ExtractAssemble | python/CPU.py:177-198 | slicing an assembled R-format word returns opcode = bits 31..26, rs = 25..21, rt = 20..16, rd = 15..11 and funct = 5..0; the sign-extender input is bits 16..0 |
| InstructionFields.AssembleExtract | python/CPU.py:177-198 | every 32-bit word is rebuilt from its sliced fields, together with the unused shamt slice (round trip in the other direction) |
| InstructionFields.SignExtendInputHasBit16 | python/CPU.py:177 | the sign extender receives the 16-bit immediate topped by bit 16, which is the low bit of rt |
| Wires.Width | python/CPU.py:45-167 | every declared signal is 1 to 32 bits wide |
| Wires.LimitIsPow2 | python/CPU.py:45-167 | each signal's range is 2 to the power of its declared width |
| Wires.InitialValue | python/CPU.py:45-167 | at construction PC_plus4 is 4, IF_ID_Write is 1 and In3_jal_ra is 31, and every other signal is 0; each initial value lies within its signal's range |
| Wires.Initial | python/CPU.py:45-167 | the valuation at construction is well-typed |
| Wires.StageOf | python/CPU.py:44-162 | the stage heading (IF, ID, EX, MEM, WB) under which each signal is declared; signals under the multiplexer, hazard, jump/branch and forwarding headings have none |
| Datapath.RedirectTarget | python/CPU.py:228-232 | the target is a 32-bit word. Priority: JRControl = 1 gives regOut[31]; else Jump = 1 gives Jump_Address; else branch_taken = 1 gives BTA; else ID_EX_PC_plus4 |
| Datapath.PcIn | python/CPU.py:169 | with branch_or_jump_taken 0 the next PC is PC_plus4, with 1 it is the redirect target |
| Datapath.RedirectIgnoresRsOperand | python/CPU.py:207-232 | changing the rs operand, whether its decode-stage read reg_read_data_1, its ID/EX copy or the forwarded operand A, never changes the redirect target |
| Datapath.AluOperandA | python/CPU.py:207 | ForwardA 0, 1 and 2 select ID_EX_reg_read_data_1, EX_MEM_reg_read_data_2 and MEM_WB_D_MEM_read_data; select 3 gives no operand |
| Datapath.ForwardedB | python/CPU.py:209 | the same selection by ForwardB, with ID_EX_reg_read_data_2 as the first input |
| Datapath.AluOperandB | python/CPU.py:209-211 | ALUSrc = 1 gives the decode-stage immi_sign_extended; ALUSrc = 0 gives the forwarded value |
| Datapath.OperandsIgnoreAluResults | python/CPU.py:207-211 | neither operand depends on ALU_result or EX_MEM_ALU_result |
| Datapath.OperandBIgnoresLatchedControls | python/CPU.py:211 | operand B does not depend on ID_EX_ALUSrc or ID_EX_immi_sign_extended |
| Datapath.ExMemDestination | python/CPU.py:215 | ID_EX_RegDst 0 gives rd, 1 gives rt, and 2 or 3 gives none; the result is a 5-bit register number |
| Datapath.WriteBackDestination | python/CPU.py:184 | MEM_WB_RegDst 0 gives MEM_WB_RegisterRd, 1 gives the link constant, and 2 or 3 gives none |
| Datapath.WriteBackDestinationAtRest | python/CPU.py:156-184 | while MEM_WB_RegDst keeps its initial value, the destination is MEM_WB_RegisterRd |
| Datapath.LinkDestinationAtRest | python/CPU.py:77-184 | while In3_jal_ra keeps its initial value, MEM_WB_RegDst = 1 makes register 31 the destination |
| Datapath.WriteBackData | python/CPU.py:190 | MEM_WB_MemtoReg 0, 1 and 2 select the ALU result, the memory data and MEM_WB_PC_plus_4; select 3 gives none |
| Datapath.StallGate | python/CPU.py:188 | during a load-use stall both gated enables are 0; otherwise they are the decoder's RegWrite and MemWrite |
| Datapath.IdExWriteEnables | python/CPU.py:198 | ID/EX latches 1-bit enables: the ungated RegWrite and MemWrite, whose relation to the gate is in the two lemmas below |
| Datapath.StallGateBypassed | python/CPU.py:188-198 | during a stall with a raised enable, the gate outputs 0 but ID/EX still receives the raised enable |
| Datapath.StallGateTransparent | python/CPU.py:188-198 | outside a stall the gate and ID/EX agree |
| Datapath.AluCode | python/CPU.py:201 | a code exists exactly when the execute-stage class and funct decode, and it fits out_to_ALU |
| Datapath.JrFlag | python/CPU.py:203 | the flag fits JRControl and is 1 if and only if ID_EX_ALUOp is 0 and ID_EX_funct is 8 |
| Datapath.PcAtConstruction | python/CPU.py:46-169 | on the construction values the PC-input multiplexer selects PC_plus4 = 4, while PC_in itself starts at 0 |
| Datapath.OperandAAtConstruction | python/CPU.py:161-207 | right after construction operand A is 0, from the ID/EX register value |
| Datapath.OperandBAtConstruction | python/CPU.py:162-211 | right after construction operand B is 0, the forwarded register value rather than the immediate |
| Datapath.WriteBackAtConstruction | python/CPU.py:55-184 | right after construction the write-back destination is MEM_WB_RegisterRd = 0 |
| Datapath.DecodersAtConstruction | python/CPU.py:45-203 | right after construction the ALU is told to add and the jump-register flag is low |
| Netlist.Block | python/CPU.py:50-232 | the block each of the 31 instances calls; each pipeline register (if_id, id_ex, ex_mem, mem_wb), the write-back destination multiplexer and the load-use gate is instantiated exactly once, by the instance the lemmas name |
| Netlist.Args | python/CPU.py:50-232 | the arguments each instance is given, in positional order, as whole signals, slices of IF_ID_instruction, clock, reset, regOut or regOut[31], the file name and the memory list |
| Netlist.ArgValue | python/CPU.py:177-232 | an argument carries a word exactly when it is a whole signal, a slice `IF_ID_instruction(hi, lo)` with lo <= hi, or `regOut[i]` within the port; the clock, reset, file name and memory list carry none |
| Netlist.ArgValueBounds | python/CPU.py:177-232 | a whole signal carries its own value, within its declared width; a slice `(hi, lo)` carries a value that fits in hi-lo bits; `regOut[i]` carries a 32-bit word |
| Netlist.GatedEnablesUnconsumed | python/CPU.py:188-198 | the instance `hazard_stall_mux_2_to_1` is the only one given h_RegWrite_out or h_MemWrite_out, at any position; those are its 4th and 5th arguments; ID/EX is given the ungated RegWrite and MemWrite, and the stall signal ID_Flush_lwstall as its 3rd argument, like the gate |
| Netlist.LinkSelectUnlatched | python/CPU.py:77-223 | the instance `regDst_mux_2_to_1` is the only one given In3_jal_ra or MEM_WB_RegDst, at any position (so no block, mem_wb included, drives either); they are its 2nd and 3rd arguments; they start at 31 and 0 |
| Netlist.LatchedOperandControls | python/CPU.py:198 | ID/EX is given ALUSrc and the immediate, and produces ID_EX_ALUSrc and ID_EX_immi_sign_extended |
| Netlist.AluSrcMuxReadsDecodeStage | python/CPU.py:211 | the execute-stage ALUSrc multiplexer is given the decode-stage immediate and ALUSrc, and neither ID/EX copy |
| Netlist.BranchCheckMixesStages | python/CPU.py:226 | isBranch is given the execute-stage ALU_zero and the decode-stage Branch, not ID_EX_Branch |
| Netlist.ForwardSourceIsStoreData | python/CPU.py:207-217 | both forwarding multiplexers take EX/MEM's store-data value, which ex_mem latches from the forwarded second operand, and neither is given the latched ALU result |
| Netlist.JrTargetIsRegisterThirtyOne | python/CPU.py:232 | the last redirect multiplexer is given element 31 of the register file's observation port, not the rs operand |
| Netlist.ForwardingArgumentOrder | python/CPU.py:204-205 | the forwarding unit's arguments are the comment's list with the EX/MEM write enable moved after the MEM/WB pair; at ports 4 and 5 this makes the widths disagree (5 bits against 1) |
| Netlist.ForwardingArgumentsPermuted | python/CPU.py:204-205 | the arguments and the comment's list hold the same signals, each once (same multiset), but the two lists differ |
| Netlist.SlicesCarryFields | python/CPU.py:177-198 | every slice of IF_ID_instruction given to an instance carries the field that Extract names |
| Netlist.NextPcWiring | python/CPU.py:169-232 | once the four next-PC multiplexers have settled, their outputs are RedirectTarget and PcIn |
| Netlist.OperandWiring | python/CPU.py:207-213 | once the operand multiplexers have settled, the ALU is given AluOperandA and AluOperandB, and the second forwarding multiplexer outputs ForwardedB |
| Netlist.DestinationWiring | python/CPU.py:184-215 | once the destination and write-back multiplexers have settled, their outputs are ExMemDestination, WriteBackDestination and WriteBackData, and the register file is given the last two |
| Netlist.StallWiring | python/CPU.py:188-198 | once the gate has settled, its outputs are StallGate, while ID/EX is given IdExWriteEnables |
| Netlist.DecoderWiring | python/CPU.py:201-203 | once the decoders have settled, JRControl is JrFlag and, where the pair decodes, out_to_ALU is AluCode |

## Left out

- MyHDL simulation is not modelled: `@block`, `@always` sensitivity lists, `.next` update timing, `instances()` and the clock generator. The model states what settled multiplexer outputs carry, not when they change.
- Loading the instruction memory from `instructions.txt` and the `mem` list is I/O; they appear only as arguments of `Instruction_Memory`.
- These blocks are defined in modules that `python/CPU.py` imports at lines 8-31 (`PC`, `Instruction_Memory`, `Register_File`, `ALU`, `Data_Memory`, `Sign_Extender`, `Control`, `branch_jump_calc`, `Forwarding_Unit`, `Hazard_Detection_Unit`, `Multiplexers`, `isBranch`, `IF_ID`, `ID_EX`, `EX_MEM`, `MEM_WB`, `CPU_Assigns`); those modules are not part of this model. The blocks are free inputs: PC incrementer (`PC_Increment`, whose output is `PC_plus4`), program counter, instruction memory, register file, data memory, ALU, sign extender, control unit, hazard unit, forwarding unit, `isBranch`, flush unit, branch and jump calculators, and the four pipeline registers. No rule is invented for their outputs.
- Datapath.Mux2, Datapath.Mux2Wide, Datapath.Mux3: the multiplexer blocks come from the same imported modules. The model assumes the selection their names and select widths describe (see above), with `None` for a select value they do not decode.
- Datapath.StallGate: `hazard_stall_mux_2_to_1` comes from one of the wildcard imports at `python/CPU.py` lines 18, 20, 21 and 31 (`branch_jump_calc`, `Hazard_Detection_Unit`, `Multiplexers`, `CPU_Assigns`), which are not part of this model. The model assumes it clears both enables while the stall input is 1 and passes them through otherwise, as its name and arguments suggest.
- Datapath.AluCode: `python/CPU.py:201` instantiates `alu_control`, while `python/ALU_Control.py:4`, imported with a wildcard at `python/CPU.py:17`, defines `ALU_Control`; the lower-case name can only come from the other wildcard imports (lines 18, 20, 21 and 31), which are not part of this model. The model assumes the instance is the decoder of `python/ALU_Control.py`; `Netlist.DecoderWiring` rests on the same assumption. The jump-register instance at `python/CPU.py:203` calls `JR_Control`, which matches that file's name.
- The program counter's write gating by `PCWrite` and the IF/ID write gating by `IF_ID_Write` belong to blocks defined in those imported modules. They appear only as arguments.
- AluDecoder.AluControl, AluDecoder.JrControl: `python/ALU_Control.py` does not run as written. Its assignments bind local names instead of driving the signals, and `JR_Control` has a syntax error. Both decoders are modelled as the lookups the conditions spell out.
- The widths are modelled as unbounded naturals checked against each signal's range. No arithmetic wraps, because no modelled selection computes one.
