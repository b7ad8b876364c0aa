/** The instruction handlers of src/instruction/emcs51_general_inst.c as
    methods on the core, each proved to act as the matching function of module
    Semantics, and `emcs51_general_inst_init`, which installs them. */
module GeneralInst {
  import opened Emcs51
  import opened Machine
  import opened Semantics
  import opened Emcs51Core

  /** The direct-addressed store every storing handler performs: the write
      hook registered at `addr`, if any, is called with `(addr, v)`, then the
      RAM byte is written. */
  method StoreDirect(core: Core, addr: uint8, v: uint8)
    requires core.Valid()
    modifies core`hookLog, core.dataRam
    ensures core.Valid() && core.Abs() == Store(old(core.Abs()), addr, v)
  {
    ghost var s := core.Abs();
    var hook := core.writeHooks[addr];
    if hook.Some? {
      core.hookLog := core.hookLog + [HookCall(hook.value, addr, v)];
    }
    core.dataRam[addr] := v;
    assert core.hookLog == s.hookLog + HookCalls(s, addr, v);
    assert core.dataRam[..] == s.dataRam[addr := v];
  }

  /** `emcs51_nop_inst_exec_cb`. */
  method NopExec(core: Core)
    requires core.Valid()
    ensures core.Abs() == ExecNop(old(core.Abs()))
  {
  }

  /** `emcs51_ljmp_inst_exec_cb`. */
  method LjmpExec(core: Core)
    requires core.Valid()
    modifies core`reg, core`isJumped
    ensures core.Valid() && core.Abs() == ExecLjmp(old(core.Abs()))
  {
    var addr16 := Word(core.operands[0], core.operands[1]);
    core.reg := core.reg.(pc := addr16);
    core.isJumped := true;
  }

  /** `emcs51_mov_direct_immed_inst_exec_cb`. */
  method MovDirectImmedExec(core: Core)
    requires core.Valid()
    modifies core`hookLog, core.dataRam
    ensures core.Valid() && core.Abs() == ExecMovDirectImmed(old(core.Abs()))
  {
    var iramAddr := core.operands[0];
    var data := core.operands[1];
    StoreDirect(core, iramAddr, data);
  }

  /** `emcs51_mov_rn_immed_inst_exec_cb`. */
  method MovRnImmedExec(core: Core, opcode: uint8)
    requires core.Valid()
    modifies core`hookLog, core.dataRam
    ensures core.Valid() && core.Abs() == ExecMovRnImmed(old(core.Abs()), opcode)
  {
    var regNum := opcode % 8;
    var data := core.operands[0];
    var rs := (core.reg.psw / 8) % 4;
    var iramAddr := rs * 8 + regNum;
    StoreDirect(core, iramAddr, data);
  }

  /** `emcs51_sjmp_inst_exec_cb`. */
  method SjmpExec(core: Core)
    requires core.Valid()
    modifies core`reg, core`isJumped
    ensures core.Valid() && core.Abs() == ExecSjmp(old(core.Abs()))
  {
    core.reg := core.reg.(pc := RelTarget(core.reg.pc, core.operands[0]));
    core.isJumped := true;
  }

  /** `emcs51_mov_dptr_immed_inst_exec_cb`. */
  method MovDptrImmedExec(core: Core)
    requires core.Valid()
    modifies core.dataRam
    ensures core.Valid() && core.Abs() == ExecMovDptrImmed(old(core.Abs()))
  {
    var dptrValue := Word(core.operands[0], core.operands[1]);
    var _ := core.WriteDptr(dptrValue);
  }

  /** `emcs51_inc_dptr_inst_exec_cb`. The DPTR accessors always report
      success, so the source's error branches after them are never taken. */
  method IncDptrExec(core: Core)
    requires core.Valid()
    modifies core.dataRam
    ensures core.Valid() && core.Abs() == ExecIncDptr(old(core.Abs()))
  {
    var _, dptrValue := core.ReadDptr();
    dptrValue := Succ16(dptrValue);
    var _ := core.WriteDptr(dptrValue);
  }

  /** `emcs51_clr_bit_inst_exec_cb`. */
  method ClrBitExec(core: Core)
    requires core.Valid()
    modifies core`hookLog, core.dataRam
    ensures core.Valid() && core.Abs() == ExecClrBit(old(core.Abs()))
  {
    StoreDirect(core, core.operands[0], 0x00);
  }

  /** `emcs51_set_bit_inst_exec_cb`. */
  method SetBitExec(core: Core)
    requires core.Valid()
    modifies core`hookLog, core.dataRam
    ensures core.Valid() && core.Abs() == ExecSetBit(old(core.Abs()))
  {
    StoreDirect(core, core.operands[0], 0x01);
  }

  /** `emcs51_djnz_rn_offset_inst_exec_cb`. A register number the read
      accepts is one the write accepts too, so the check after the write is
      never taken. */
  method DjnzRnExec(core: Core, opcode: uint8)
    requires core.Valid()
    modifies core`err, core`reg, core`isJumped, core.dataRam
    ensures core.Valid() && core.Abs() == ExecDjnzRn(old(core.Abs()), opcode)
  {
    var regNum := Wrap8(opcode - 0xD8);
    var status, rnData := core.ReadGpr(regNum);
    if status < 0 {
      core.err := status;
      return;
    }
    rnData := Wrap8(rnData as int - 1);
    status := core.WriteGpr(regNum, rnData);
    if rnData != 0 {
      core.reg := core.reg.(pc := RelTarget(core.reg.pc, core.operands[0]));
      core.isJumped := true;
    }
  }

  /** `emcs51_clr_a_inst_exec_cb`. */
  method ClrAExec(core: Core)
    requires core.Valid()
    modifies core`reg
    ensures core.Valid() && core.Abs() == ExecClrA(old(core.Abs()))
  {
    core.reg := core.reg.(a := 0x00);
  }

  /** `emcs51_movx_at_dptr_a_inst_exec_cb`. */
  method MovxAtDptrAExec(core: Core)
    requires core.Valid()
    modifies core.xdata
    ensures core.Valid() && core.Abs() == ExecMovxAtDptrA(old(core.Abs()))
  {
    var _, dptrValue := core.ReadDptr();
    if dptrValue >= core.xdata.Length {
      return;
    }
    core.xdata[dptrValue] := core.reg.a;
  }

  /** `emcs51_mov_ari_a_inst_exec_cb`. */
  method MovAtRiAExec(core: Core, opcode: uint8)
    requires core.Valid()
    modifies core`err, core`hookLog, core.dataRam
    ensures core.Valid() && core.Abs() == ExecMovAtRiA(old(core.Abs()), opcode)
  {
    var regNum := Wrap8(opcode - 0xF6);
    var status, rnData := core.ReadGpr(regNum);
    if status < 0 {
      core.err := status;
      return;
    }
    StoreDirect(core, rnData, core.reg.a);
  }

  /** The call through the descriptor's handler pointer. */
  method Exec(core: Core, opcode: uint8, h: Handler)
    requires core.Valid()
    modifies core`err, core`reg, core`isJumped, core`hookLog, core.dataRam, core.xdata
    ensures core.Valid() && core.Abs() == Semantics.Exec(old(core.Abs()), opcode, h)
  {
    match h
    case Nop => NopExec(core);
    case Ljmp => LjmpExec(core);
    case MovDirectImmed => MovDirectImmedExec(core);
    case MovRnImmed => MovRnImmedExec(core, opcode);
    case Sjmp => SjmpExec(core);
    case MovDptrImmed => MovDptrImmedExec(core);
    case IncDptr => IncDptrExec(core);
    case ClrBit => ClrBitExec(core);
    case SetBit => SetBitExec(core);
    case DjnzRn => DjnzRnExec(core, opcode);
    case ClrA => ClrAExec(core);
    case MovxAtDptrA => MovxAtDptrAExec(core);
    case MovAtRiA => MovAtRiAExec(core, opcode);
  }

  /** `emcs51_general_inst_init`: registers the 13 handlers on 28 opcodes. */
  method GeneralInstInit(core: Core)
    requires core.Valid()
    modifies core`instDef
    ensures core.Valid() && core.Abs() == Semantics.GeneralInstInit(old(core.Abs()))
  {
    core.InstAdd(0x00, NopDef);
    core.InstAdd(0x02, LjmpDef);
    core.InstAdd(0x75, MovDirectImmedDef);
    core.InstAddRange(0x78, 8, MovRnImmedDef);
    core.InstAdd(0x80, SjmpDef);
    core.InstAdd(0x90, MovDptrImmedDef);
    core.InstAdd(0xA3, IncDptrDef);
    core.InstAdd(0xC2, ClrBitDef);
    core.InstAdd(0xD2, SetBitDef);
    core.InstAddRange(0xD8, 8, DjnzRnDef);
    core.InstAdd(0xE4, ClrADef);
    core.InstAdd(0xF0, MovxAtDptrADef);
    core.InstAddRange(0xF6, 2, MovAtRiADef);
  }
}
