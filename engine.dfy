/** `emcs51_core_inc` of src/core/emcs51_core.c: the fetch-decode-execute
    step on the core object, proved to act as `Semantics.Inc`. */
module Engine {
  import opened Emcs51
  import opened Machine
  import Semantics
  import opened Emcs51Core
  import GeneralInst

  /** One step. A core holding an error does nothing; otherwise the opcode
      is fetched at `pc`, looked up, its operands fetched into the operand
      buffer, its handler run, and `pc` advanced past the instruction unless
      the handler jumped. The code-fetch callback is `Fetch` over the code
      store. */
  method Inc(core: Core)
    requires core.Valid()
    modifies core`err, core`reg, core`isJumped, core`hookLog, core.dataRam, core.xdata, core.operands
    ensures core.Valid() && core.Abs() == Semantics.Inc(old(core.Abs()))
  {
    ghost var s := core.Abs();
    if core.err < 0 {
      return;
    }
    var fetched := Fetch(core.code, core.reg.pc, 1);
    if fetched.Failure? {
      core.err := fetched.code;
      assert Semantics.Inc(s) == s.(err := fetched.code);
      return;
    }
    var opcode := fetched.value[0];
    var instDef := core.instDef[opcode];
    if instDef.mnemonic.None? || instDef.cycles == 0 {
      core.err := ErrUnknownInst;
      assert Semantics.Inc(s) == s.(err := ErrUnknownInst);
      return;
    }
    var operandBytes := Fetch(core.code, Wrap16(core.reg.pc + 1), instDef.length);
    if operandBytes.Failure? {
      core.err := operandBytes.code;
      assert Semantics.Inc(s) == s.(err := operandBytes.code);
      return;
    }
    assert Semantics.Inc(s) == Semantics.Complete(Semantics.Executed(s, opcode, instDef, operandBytes.value), instDef.length);
    Execute(core, opcode, instDef, operandBytes.value);
  }

  /** The part of the step after a successful fetch: the operands go to the
      operand buffer, the descriptor's handler (if any) runs, and the step
      completes. */
  method Execute(core: Core, opcode: uint8, instDef: InstDef, ops: seq<uint8>)
    requires core.Valid() && |ops| == instDef.length
    modifies core`err, core`reg, core`isJumped, core`hookLog, core.dataRam, core.xdata, core.operands
    ensures core.Valid()
    ensures core.Abs() == Semantics.Complete(Semantics.Executed(old(core.Abs()), opcode, instDef, ops), instDef.length)
  {
    LoadOperands(core, ops);
    if instDef.exec.Some? {
      GeneralInst.Exec(core, opcode, instDef.exec.value);
    }
    Complete(core, instDef.length);
  }

  /** Copies the fetched operand bytes to the front of the operand buffer. */
  method LoadOperands(core: Core, ops: seq<uint8>)
    requires core.Valid() && |ops| <= 4
    modifies core.operands
    ensures core.Valid() && core.Abs() == old(core.Abs()).(operands := ops + old(core.operands[..])[|ops|..])
  {
    forall i | 0 <= i < |ops| {
      core.operands[i] := ops[i];
    }
    assert core.operands[..] == ops + old(core.operands[..])[|ops|..];
  }

  /** The end of the step once the handler has run: the bounds check on the
      handler's `pc`, then the default advance or the clearing of the jump
      flag. */
  method Complete(core: Core, len: OperandLength)
    requires core.Valid()
    modifies core`err, core`reg, core`isJumped
    ensures core.Valid() && core.Abs() == Semantics.Complete(old(core.Abs()), len)
  {
    if Semantics.NoRoom(core.reg.pc, len) {
      core.err := ErrCodeOutOfRange;
      return;
    }
    if !core.isJumped {
      core.reg := core.reg.(pc := core.reg.pc + 1 + len);
    }
    if core.isJumped {
      core.isJumped := false;
    }
  }
}
