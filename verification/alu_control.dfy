/** The ALU-operation decoder of the execute stage (python/ALU_Control.py):
    `ALU_Control` turns an ALU-op class and a function field into the
    operation the ALU performs, and `JR_Control` raises the jump-register
    flag. Both are combinational lookups over the same two inputs. */
module AluDecoder {
  import opened Wrappers

  /** The operations the decoder can select. */
  datatype AluOperation = Add | Subtract | And

  /** The code driven onto the 2-bit ALU operation wire: 0 add, 1 subtract, 2 and. */
  function Code(op: AluOperation): (c: nat)
    ensures c <= 2
  {
    match op
    case Add => 0
    case Subtract => 1
    case And => 2
  }

  /** Distinct operations are driven as distinct codes, so the ALU can tell them apart. */
  lemma CodeInjective(op: AluOperation, op': AluOperation)
    requires Code(op) == Code(op')
    ensures op == op'
  {
  }

  /** The function-field value that selects `op` under the R-type class 4. */
  function RTypeFunct(op: AluOperation): nat
  {
    match op
    case Add => 0
    case Subtract => 2
    case And => 6
  }

  /** `ALU_Control`: classes 0 and 2 add, classes 1 and 3 subtract, class 4
      decodes the function field; every other pair is left unassigned by the
      source, which is a decode failure here. */
  function AluControl(aluOp: nat, funct: nat): (r: Option<AluOperation>)
    ensures r.Some? <==> aluOp <= 3 || (aluOp == 4 && (funct == 0 || funct == 2 || funct == 6))
    ensures r.Some? ==> Code(r.value) <= 2
    ensures aluOp == 0 || aluOp == 2 ==> r == Some(Add)
    ensures aluOp == 1 || aluOp == 3 ==> r == Some(Subtract)
  {
    if aluOp == 0 then Some(Add)
    else if aluOp == 1 then Some(Subtract)
    else if aluOp == 2 then Some(Add)
    else if aluOp == 3 then Some(Subtract)
    else if aluOp == 4 then
      if funct == 0 then Some(Add)
      else if funct == 2 then Some(Subtract)
      else if funct == 6 then Some(And)
      else None
    else None
  }

  /** `JR_Control`: the flag is 1 exactly when the class is 0 and the
      function field is 8, and 0 for every other pair. */
  function JrControl(aluOp: nat, funct: nat): (flag: nat)
    ensures flag <= 1
    ensures flag == 1 <==> aluOp == 0 && funct == 8
  {
    if aluOp == 0 && funct == 8 then 1 else 0
  }

  /** Outside the R-type class the function field plays no part in the decode. */
  lemma FunctIgnoredOutsideRType(aluOp: nat, funct: nat, funct': nat)
    requires aluOp != 4
    ensures AluControl(aluOp, funct) == AluControl(aluOp, funct')
  {
  }

  /** Under class 4 the function field and the operation determine each other:
      funct decodes to op exactly when it is op's R-type encoding. */
  lemma RTypeDecodeIff(funct: nat, op: AluOperation)
    ensures AluControl(4, funct) == Some(op) <==> funct == RTypeFunct(op)
  {
  }

  /** A raised jump-register flag always comes with the add operation, since
      the flag's condition lies inside class 0. */
  lemma JrFlagImpliesAdd(aluOp: nat, funct: nat)
    requires JrControl(aluOp, funct) == 1
    ensures AluControl(aluOp, funct) == Some(Add)
  {
  }

  /** The R-type pair (4, 8), the encoding of `jr` in the MIPS function field,
      raises no flag and has no ALU operation. */
  lemma RTypeJrNotFlagged()
    ensures JrControl(4, 8) == 0
    ensures AluControl(4, 8) == None
  {
  }

  /** The flag is not a function of the chosen operation: two pairs with the
      same operation can differ in the flag. */
  lemma JrFlagNotDeterminedByOperation()
    ensures AluControl(0, 0) == AluControl(0, 8) == Some(Add)
    ensures JrControl(0, 0) != JrControl(0, 8)
  {
  }
}
