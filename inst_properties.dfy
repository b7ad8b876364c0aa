/** Properties of the instruction handlers of
    src/instruction/emcs51_general_inst.c and of the step that runs them. */
module InstProperties {
  import opened Emcs51
  import opened Machine
  import opened Semantics
  import opened Step
  import CoreProperties

  /** The handlers that may move `pc` themselves. */
  predicate Jumps(h: Handler) {
    h == Ljmp || h == Sjmp || h == DjnzRn
  }

  /** Every other handler leaves `pc` and the jump flag alone, and no
      handler touches the code store, the tables or the operand buffer. */
  lemma NonJumpingKeepsPc(s: State, opcode: uint8, h: Handler)
    requires s.Valid() && !Jumps(h)
    ensures Exec(s, opcode, h).reg.pc == s.reg.pc && Exec(s, opcode, h).isJumped == s.isJumped
  {
  }

  // ----- the end of a step -----

  /** A handler that left the jump flag clear (any handler that cannot
      jump, and DJNZ when the register reaches 0): `pc` moves past the
      opcode and its operands, and the jump flag stays clear. */
  lemma StepAdvances(s: State, opcode: uint8, d: InstDef, ops: seq<uint8>)
    requires s.Valid() && s.err >= 0 && s.reg.pc < |s.code|
    requires opcode == s.code[s.reg.pc] && d == s.instDef[opcode] && !d.IsUndefined()
    requires Wrap16(s.reg.pc + 1) + d.length <= |s.code|
    requires ops == s.code[Wrap16(s.reg.pc + 1)..Wrap16(s.reg.pc + 1) + d.length]
    requires !Executed(s, opcode, d, ops).isJumped
    requires s.reg.pc + 1 + d.length <= 0xFFFF
    ensures Inc(s).reg.pc == s.reg.pc + 1 + d.length && !Inc(s).isJumped
  {
    IncExecutes(s, opcode, d, ops);
  }

  /** A handler that jumped: `pc` is the handler's target and the step clears
      the jump flag instead of advancing. */
  lemma StepFollowsJump(s: State, opcode: uint8, d: InstDef, ops: seq<uint8>)
    requires s.Valid() && s.err >= 0 && s.reg.pc < |s.code|
    requires opcode == s.code[s.reg.pc] && d == s.instDef[opcode] && !d.IsUndefined()
    requires Wrap16(s.reg.pc + 1) + d.length <= |s.code|
    requires ops == s.code[Wrap16(s.reg.pc + 1)..Wrap16(s.reg.pc + 1) + d.length]
    requires Executed(s, opcode, d, ops).isJumped
    requires !NoRoom(Executed(s, opcode, d, ops).reg.pc, d.length)
    ensures Inc(s) == Executed(s, opcode, d, ops).(isJumped := false)
  {
    IncExecutes(s, opcode, d, ops);
  }

  /** The bounds check uses the `pc` the handler left: when `pc + 1 + length`
      exceeds 0xFFFF the error becomes `ErrCodeOutOfRange`, `pc` does not
      advance and the jump flag is not cleared. */
  lemma StepOverflows(s: State, opcode: uint8, d: InstDef, ops: seq<uint8>)
    requires s.Valid() && s.err >= 0 && s.reg.pc < |s.code|
    requires opcode == s.code[s.reg.pc] && d == s.instDef[opcode] && !d.IsUndefined()
    requires Wrap16(s.reg.pc + 1) + d.length <= |s.code|
    requires ops == s.code[Wrap16(s.reg.pc + 1)..Wrap16(s.reg.pc + 1) + d.length]
    requires NoRoom(Executed(s, opcode, d, ops).reg.pc, d.length)
    ensures Inc(s) == Executed(s, opcode, d, ops).(err := ErrCodeOutOfRange)
  {
    IncExecutes(s, opcode, d, ops);
  }

  /** Between steps the jump flag is clear: a step that starts with it clear
      ends with it clear, unless the step stopped on the bounds check. */
  lemma JumpFlagClearAfterStep(s: State)
    requires s.Valid() && !s.isJumped
    ensures !Inc(s).isJumped || Inc(s).err == ErrCodeOutOfRange
  {
    if s.err >= 0 && s.reg.pc < |s.code| {
      var opcode := s.code[s.reg.pc];
      var d := s.instDef[opcode];
      var start := Wrap16(s.reg.pc + 1);
      if !d.IsUndefined() && start + d.length <= |s.code| {
        IncExecutes(s, opcode, d, s.code[start..start + d.length]);
      }
    }
  }

  // ----- the handlers -----

  /** LJMP: the first operand is the high byte of the target, the second the
      low byte. */
  lemma LjmpTarget(s: State)
    requires s.Valid()
    ensures Hi(ExecLjmp(s).reg.pc) == s.operands[0] && Lo(ExecLjmp(s).reg.pc) == s.operands[1]
    ensures ExecLjmp(s).isJumped && ExecLjmp(s) == s.(reg := ExecLjmp(s).reg, isJumped := true)
  {
  }

  /** A relative offset survives being encoded as a byte: every distance in
      -128 .. 127 is reached by exactly the byte `Wrap8(distance)`. */
  lemma SignedOfWrap8(distance: int)
    requires -128 <= distance < 128
    ensures Signed(Wrap8(distance)) == distance
  {
  }

  /** SJMP and DJNZ reach `pc + 2 + distance`, modulo 0x10000, for every
      distance a byte can encode. */
  lemma RelTargetReaches(pc: uint16, distance: int)
    requires -128 <= distance < 128
    ensures RelTarget(pc, Wrap8(distance)) == Wrap16(pc + 2 + distance)
  {
    SignedOfWrap8(distance);
  }

  /** The offset 0xFE (-2) jumps back to the instruction itself. */
  lemma RelTargetSelf(pc: uint16)
    ensures RelTarget(pc, 0xFE) == pc
  {
  }

  /** MOV Rn,#immediate sets register `opcode % 8` of the current bank to
      the operand, as the accessor would, and calls the hook at its
      address. */
  lemma MovRnImmedIsWriteGpr(s: State, opcode: uint8)
    requires s.Valid()
    ensures var r := ExecMovRnImmed(s, opcode);
            r == WriteGpr(s, opcode % 8, s.operands[0]).(hookLog := r.hookLog)
            && r.hookLog == s.hookLog + HookCalls(s, GprAddr(s.reg.psw, opcode % 8), s.operands[0])
            && ReadGpr(r, opcode % 8) == Success(s.operands[0])
  {
    var r := ExecMovRnImmed(s, opcode);
    assert r.dataRam == WriteGpr(s, opcode % 8, s.operands[0]).dataRam;
  }

  /** CLR bit and SETB bit write the whole byte at the operand address, 0x00
      and 0x01 respectively, and no other byte. */
  lemma BitOpsWriteWholeByte(s: State)
    requires s.Valid()
    ensures ExecClrBit(s).dataRam == s.dataRam[s.operands[0] := 0]
    ensures ExecSetBit(s).dataRam == s.dataRam[s.operands[0] := 1]
  {
    assert ExecClrBit(s).dataRam == s.dataRam[s.operands[0] := 0];
    assert ExecSetBit(s).dataRam == s.dataRam[s.operands[0] := 1];
  }

  /** DJNZ Rn: the register is decremented modulo 256, and the handler jumps
      exactly when the new value is not zero. */
  lemma DjnzDecrements(s: State, opcode: uint8)
    requires s.Valid() && 0xD8 <= opcode <= 0xDF
    ensures var n := opcode - 0xD8;
            var r := ExecDjnzRn(s, opcode);
            r.err == s.err && r.hookLog == s.hookLog
            && ReadGpr(r, n) == Success(Wrap8(ReadGpr(s, n).value - 1))
            && (r.isJumped <==> ReadGpr(s, n).value != 1 || s.isJumped)
            && (ReadGpr(s, n).value != 1 ==> r.reg == s.reg.(pc := RelTarget(s.reg.pc, s.operands[0])))
            && (ReadGpr(s, n).value == 1 ==> r.reg == s.reg)
  {
    var n := opcode - 0xD8;
    assert Wrap8(opcode - 0xD8) == n;
    var v := s.dataRam[GprAddr(s.reg.psw, n)];
    var w := WriteGpr(s, n, Wrap8(v as int - 1));
    assert ReadGpr(w, n) == Success(Wrap8(v as int - 1));
    if v == 1 {
      assert ExecDjnzRn(s, opcode) == w;
    } else {
      assert ExecDjnzRn(s, opcode) == w.(reg := w.reg.(pc := RelTarget(s.reg.pc, s.operands[0])), isJumped := true);
    }
  }

  /** MOV DPTR,#immediate loads the data pointer with the two operands, high
      byte first. */
  lemma MovDptrImmedLoads(s: State)
    requires s.Valid()
    ensures Hi(Dptr(ExecMovDptrImmed(s))) == s.operands[0] && Lo(Dptr(ExecMovDptrImmed(s))) == s.operands[1]
  {
    CoreProperties.DptrAfterWithDptr(s, Word(s.operands[0], s.operands[1]));
  }

  /** The 16-bit increment is addition modulo 0x10000. */
  lemma Succ16IsWrap(x: uint16)
    ensures Succ16(x) == Wrap16(x + 1)
  {
  }

  /** INC DPTR adds one to the data pointer modulo 0x10000, so 0xFFFF wraps
      to 0, and changes only DPH and DPL. */
  lemma IncDptrWraps(s: State)
    requires s.Valid()
    ensures Dptr(ExecIncDptr(s)) == Wrap16(Dptr(s) + 1)
    ensures Dptr(s) == 0xFFFF ==> Dptr(ExecIncDptr(s)) == 0
    ensures forall a :: 0 <= a < 256 && a != Dph && a != Dpl ==> ExecIncDptr(s).dataRam[a] == s.dataRam[a]
  {
    CoreProperties.DptrAfterWithDptr(s, Succ16(Dptr(s)));
    Succ16IsWrap(Dptr(s));
  }

  /** MOVX @DPTR,A writes the accumulator to the external RAM exactly when
      the data pointer is inside it; either way the error is unchanged and
      nothing but that one byte of the external RAM changes. */
  lemma MovxStoresIffInside(s: State)
    requires s.Valid()
    ensures var r := ExecMovxAtDptrA(s);
            r == s.(xdata := r.xdata) && r.err == s.err && |r.xdata| == |s.xdata|
            && (Dptr(s) < |s.xdata| ==> r.xdata[Dptr(s)] == s.reg.a)
            && (Dptr(s) >= |s.xdata| ==> r.xdata == s.xdata)
            && forall i :: 0 <= i < |s.xdata| && i != Dptr(s) ==> r.xdata[i] == s.xdata[i]
  {
  }

  /** MOV @Ri,A (0xF6, 0xF7) stores the accumulator at the address that R0 or
      R1 holds, through the hook at that address. */
  lemma MovAtRiAStores(s: State, opcode: uint8)
    requires s.Valid() && 0xF6 <= opcode <= 0xF7
    ensures var addr := ReadGpr(s, opcode - 0xF6).value;
            var r := ExecMovAtRiA(s, opcode);
            r.dataRam == s.dataRam[addr := s.reg.a]
            && (s.writeHooks[addr].Some? ==> r.hookLog == s.hookLog + [HookCall(s.writeHooks[addr].value, addr, s.reg.a)])
            && (s.writeHooks[addr].None? ==> r.hookLog == s.hookLog)
            && r == s.(dataRam := r.dataRam, hookLog := r.hookLog)
  {
  }

  /** A register-indexed handler reached through an opcode whose register
      number is out of range reports `Err` and changes nothing else. */
  lemma RegisterIndexedRefused(s: State, opcode: uint8)
    requires s.Valid()
    ensures Wrap8(opcode - 0xD8) > 7 ==> ExecDjnzRn(s, opcode) == s.(err := Err)
    ensures Wrap8(opcode - 0xF6) > 7 ==> ExecMovAtRiA(s, opcode) == s.(err := Err)
  {
  }
}
