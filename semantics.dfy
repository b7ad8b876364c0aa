/** What each instruction handler of src/instruction/emcs51_general_inst.c
    does to the core, the descriptors that register them, and the
    fetch-decode-execute step of src/core/emcs51_core.c, as functions on
    `Machine.State`. The methods in general_inst.dfy and engine.dfy are proved
    against these. */
module Semantics {
  import opened Emcs51
  import opened Machine

  /** A byte read as a two's-complement offset (`(int8_t)` in the source). */
  function Signed(b: uint8): (r: int)
    ensures -128 <= r < 128 && Wrap8(r) == b
  {
    if b < 0x80 then b else b - 0x100
  }

  /** `pc + 2 + offset` stored back into the 16-bit program counter: the
      target of SJMP and DJNZ. */
  function RelTarget(pc: uint16, offset: uint8): uint16 {
    Wrap16(pc + 2 + Signed(offset))
  }

  /** The hook calls a direct-addressed store of `v` at `addr` makes: one
      call of the write hook at `addr`, if one is registered. */
  function HookCalls(s: State, addr: uint8, v: uint8): seq<HookCall>
    requires s.Valid()
  {
    match s.writeHooks[addr]
    case None => []
    case Some(h) => [HookCall(h, addr, v)]
  }

  /** A direct-addressed store: the write hook at `addr` (if any) observes
      `v`, then the internal-RAM byte at `addr` becomes `v`. */
  function Store(s: State, addr: uint8, v: uint8): (r: State)
    requires s.Valid()
    ensures r.Valid() && r == s.(dataRam := r.dataRam, hookLog := r.hookLog)
    ensures r.dataRam[addr] == v
    ensures forall a :: 0 <= a < 256 && a != addr ==> r.dataRam[a] == s.dataRam[a]
    ensures s.writeHooks[addr].Some? ==> r.hookLog == s.hookLog + [HookCall(s.writeHooks[addr].value, addr, v)]
    ensures s.writeHooks[addr].None? ==> r.hookLog == s.hookLog
  {
    s.(hookLog := s.hookLog + HookCalls(s, addr, v), dataRam := s.dataRam[addr := v])
  }

  // ----- the handlers, operand bytes read from `s.operands` -----

  /** 0x00 NOP. */
  function ExecNop(s: State): (r: State)
    ensures r == s
  {
    s
  }

  /** 0x02 LJMP addr16. */
  function ExecLjmp(s: State): (r: State)
    requires s.Valid()
    ensures Hi(r.reg.pc) == s.operands[0] && Lo(r.reg.pc) == s.operands[1]
    ensures r.isJumped && r == s.(reg := s.reg.(pc := r.reg.pc), isJumped := true)
  {
    s.(reg := s.reg.(pc := Word(s.operands[0], s.operands[1])), isJumped := true)
  }

  /** 0x75 MOV direct,#immediate. */
  function ExecMovDirectImmed(s: State): (r: State)
    requires s.Valid()
    ensures r.dataRam == s.dataRam[s.operands[0] := s.operands[1]]
    ensures r.hookLog == s.hookLog + HookCalls(s, s.operands[0], s.operands[1])
    ensures r == s.(dataRam := r.dataRam, hookLog := r.hookLog)
  {
    Store(s, s.operands[0], s.operands[1])
  }

  /** 0x78-0x7F MOV Rn,#immediate: the register number is the opcode's low
      three bits. */
  function ExecMovRnImmed(s: State, opcode: uint8): (r: State)
    requires s.Valid()
    ensures r.dataRam == s.dataRam[GprAddr(s.reg.psw, opcode % 8) := s.operands[0]]
    ensures r.hookLog == s.hookLog + HookCalls(s, GprAddr(s.reg.psw, opcode % 8), s.operands[0])
    ensures r == s.(dataRam := r.dataRam, hookLog := r.hookLog)
  {
    Store(s, GprAddr(s.reg.psw, opcode % 8), s.operands[0])
  }

  /** 0x80 SJMP offset. */
  function ExecSjmp(s: State): (r: State)
    requires s.Valid()
    ensures r.reg.pc == Wrap16(s.reg.pc + 2 + Signed(s.operands[0]))
    ensures r.isJumped && r == s.(reg := s.reg.(pc := r.reg.pc), isJumped := true)
  {
    s.(reg := s.reg.(pc := RelTarget(s.reg.pc, s.operands[0])), isJumped := true)
  }

  /** 0x90 MOV DPTR,#immediate (written through the accessor, no hook). */
  function ExecMovDptrImmed(s: State): (r: State)
    requires s.Valid()
    ensures r.dataRam == s.dataRam[Dph := s.operands[0]][Dpl := s.operands[1]]
    ensures r == s.(dataRam := r.dataRam)
  {
    WithDptr(s, Word(s.operands[0], s.operands[1]))
  }

  /** 0xA3 INC DPTR, wrapping at 16 bits. */
  function ExecIncDptr(s: State): (r: State)
    requires s.Valid()
    ensures r.Valid() && r.dataRam[Dph] == Hi(Succ16(Dptr(s))) && r.dataRam[Dpl] == Lo(Succ16(Dptr(s)))
    ensures forall a :: 0 <= a < 256 && a != Dph && a != Dpl ==> r.dataRam[a] == s.dataRam[a]
    ensures r == s.(dataRam := r.dataRam)
  {
    WithDptr(s, Succ16(Dptr(s)))
  }

  /** 0xC2 CLR bit: the whole byte at the operand address becomes 0x00. */
  function ExecClrBit(s: State): (r: State)
    requires s.Valid()
    ensures r.dataRam == s.dataRam[s.operands[0] := 0x00]
    ensures r.hookLog == s.hookLog + HookCalls(s, s.operands[0], 0x00)
    ensures r == s.(dataRam := r.dataRam, hookLog := r.hookLog)
  {
    Store(s, s.operands[0], 0x00)
  }

  /** 0xD2 SETB bit: the whole byte at the operand address becomes 0x01. */
  function ExecSetBit(s: State): (r: State)
    requires s.Valid()
    ensures r.dataRam == s.dataRam[s.operands[0] := 0x01]
    ensures r.hookLog == s.hookLog + HookCalls(s, s.operands[0], 0x01)
    ensures r == s.(dataRam := r.dataRam, hookLog := r.hookLog)
  {
    Store(s, s.operands[0], 0x01)
  }

  /** 0xD8-0xDF DJNZ Rn,offset: the register number is `opcode - 0xD8` in
      8-bit arithmetic; one the accessor refuses sets the error to `Err`.
      The decrement goes through the accessor, which calls no hook. */
  function ExecDjnzRn(s: State, opcode: uint8): (r: State)
    requires s.Valid()
    ensures r == s.(err := r.err, dataRam := r.dataRam, reg := r.reg, isJumped := r.isJumped)
    ensures Wrap8(opcode - 0xD8) > 7 ==> r == s.(err := Err)
    ensures Wrap8(opcode - 0xD8) <= 7 ==>
      var addr := GprAddr(s.reg.psw, Wrap8(opcode - 0xD8));
      r.err == s.err && r.dataRam == s.dataRam[addr := Wrap8(s.dataRam[addr] as int - 1)]
      && (r.isJumped <==> s.dataRam[addr] != 1 || s.isJumped)
      && r.reg == s.reg.(pc := r.reg.pc)
      && r.reg.pc == (if s.dataRam[addr] != 1 then RelTarget(s.reg.pc, s.operands[0]) else s.reg.pc)
  {
    var n := Wrap8(opcode - 0xD8);
    match ReadGpr(s, n)
    case Failure(e) => s.(err := e)
    case Success(v) =>
      var s1 := WriteGpr(s, n, Wrap8(v - 1));
      if Wrap8(v - 1) != 0 then s1.(reg := s1.reg.(pc := RelTarget(s1.reg.pc, s1.operands[0])), isJumped := true)
      else s1
  }

  /** 0xE4 CLR A. */
  function ExecClrA(s: State): (r: State)
    ensures r.reg.a == 0 && r.reg == s.reg.(a := r.reg.a) && r == s.(reg := r.reg)
  {
    s.(reg := s.reg.(a := 0))
  }

  /** 0xF0 MOVX @DPTR,A: a pointer at or past the end of the external RAM
      drops the store and raises no error. */
  function ExecMovxAtDptrA(s: State): (r: State)
    requires s.Valid()
    ensures Dptr(s) < |s.xdata| ==> r.xdata == s.xdata[Dptr(s) := s.reg.a]
    ensures Dptr(s) >= |s.xdata| ==> r.xdata == s.xdata
    ensures r == s.(xdata := r.xdata)
  {
    var p := Dptr(s);
    if p >= |s.xdata| then s else s.(xdata := s.xdata[p := s.reg.a])
  }

  /** 0xF6-0xF7 MOV @Ri,A: the register number is `opcode - 0xF6` in 8-bit
      arithmetic; the register holds the internal-RAM address. */
  function ExecMovAtRiA(s: State, opcode: uint8): (r: State)
    requires s.Valid()
    ensures r == s.(err := r.err, dataRam := r.dataRam, hookLog := r.hookLog)
    ensures Wrap8(opcode - 0xF6) > 7 ==> r == s.(err := Err)
    ensures Wrap8(opcode - 0xF6) <= 7 ==>
      var addr := s.dataRam[GprAddr(s.reg.psw, Wrap8(opcode - 0xF6))];
      r.err == s.err && r.dataRam == s.dataRam[addr := s.reg.a]
      && r.hookLog == s.hookLog + HookCalls(s, addr, s.reg.a)
  {
    match ReadGpr(s, Wrap8(opcode - 0xF6))
    case Failure(e) => s.(err := e)
    case Success(addr) => Store(s, addr, s.reg.a)
  }

  /** Dispatch on the handler stored in the opcode's descriptor. */
  function Exec(s: State, opcode: uint8, h: Handler): (r: State)
    requires s.Valid()
    ensures r.Valid() && r.code == s.code && r.instDef == s.instDef && r.operands == s.operands
    ensures r.writeHooks == s.writeHooks && r.readHooks == s.readHooks
  {
    match h
    case Nop => ExecNop(s)
    case Ljmp => ExecLjmp(s)
    case MovDirectImmed => ExecMovDirectImmed(s)
    case MovRnImmed => ExecMovRnImmed(s, opcode)
    case Sjmp => ExecSjmp(s)
    case MovDptrImmed => ExecMovDptrImmed(s)
    case IncDptr => ExecIncDptr(s)
    case ClrBit => ExecClrBit(s)
    case SetBit => ExecSetBit(s)
    case DjnzRn => ExecDjnzRn(s, opcode)
    case ClrA => ExecClrA(s)
    case MovxAtDptrA => ExecMovxAtDptrA(s)
    case MovAtRiA => ExecMovAtRiA(s, opcode)
  }

  // ----- the descriptors and their registration -----

  const NopDef := InstDef(Some("NOP"), 0, 1, Some(Nop))
  const LjmpDef := InstDef(Some("LJMP addr16"), 2, 2, Some(Ljmp))
  const MovDirectImmedDef := InstDef(Some("MOV direct, #immediate"), 2, 2, Some(MovDirectImmed))
  const MovRnImmedDef := InstDef(Some("MOV Rn, #immediate"), 1, 1, Some(MovRnImmed))
  const SjmpDef := InstDef(Some("SJMP offset"), 1, 2, Some(Sjmp))
  const MovDptrImmedDef := InstDef(Some("MOV DPTR, #immediate"), 2, 2, Some(MovDptrImmed))
  const IncDptrDef := InstDef(Some("INC DPTR"), 0, 1, Some(IncDptr))
  const ClrBitDef := InstDef(Some("CLR bit"), 1, 1, Some(ClrBit))
  const SetBitDef := InstDef(Some("SET bit"), 1, 1, Some(SetBit))
  const DjnzRnDef := InstDef(Some("DJNZ Rn, offset"), 1, 1, Some(DjnzRn))
  const ClrADef := InstDef(Some("CLR A"), 0, 1, Some(ClrA))
  const MovxAtDptrADef := InstDef(Some("MOVX @DPTR, A"), 0, 1, Some(MovxAtDptrA))
  const MovAtRiADef := InstDef(Some("MOV @Ri, A"), 0, 1, Some(MovAtRiA))

  /** `emcs51_general_inst_init`: the registrations, in the source's order. */
  function GeneralInstInit(s: State): (r: State)
    requires s.Valid()
    ensures r.Valid() && r == s.(instDef := r.instDef)
    ensures forall op :: 0 <= op < 256 && r.instDef[op] != s.instDef[op] ==> !r.instDef[op].IsUndefined()
  {
    var s1 := InstAdd(s, 0x00, NopDef);
    var s2 := InstAdd(s1, 0x02, LjmpDef);
    var s3 := InstAdd(s2, 0x75, MovDirectImmedDef);
    var s4 := InstAddRange(s3, 0x78, 8, MovRnImmedDef);
    var s5 := InstAdd(s4, 0x80, SjmpDef);
    var s6 := InstAdd(s5, 0x90, MovDptrImmedDef);
    var s7 := InstAdd(s6, 0xA3, IncDptrDef);
    var s8 := InstAdd(s7, 0xC2, ClrBitDef);
    var s9 := InstAdd(s8, 0xD2, SetBitDef);
    var s10 := InstAddRange(s9, 0xD8, 8, DjnzRnDef);
    var s11 := InstAdd(s10, 0xE4, ClrADef);
    var s12 := InstAdd(s11, 0xF0, MovxAtDptrADef);
    InstAddRange(s12, 0xF6, 2, MovAtRiADef)
  }

  // ----- the step -----

  /** The state once the operands are fetched and the handler has run, when
      the step gets that far. */
  function Executed(s: State, opcode: uint8, d: InstDef, ops: seq<uint8>): (r: State)
    requires s.Valid() && |ops| == d.length
    ensures r.Valid()
  {
    var s1 := s.(operands := ops + s.operands[d.length..]);
    match d.exec
    case None => s1
    case Some(h) => Exec(s1, opcode, h)
  }

  /** `emcs51_core_inc`: one fetch-decode-execute cycle. */
  function Inc(s: State): (r: State)
    requires s.Valid()
    ensures r.Valid() && r.code == s.code && r.instDef == s.instDef
    ensures r.writeHooks == s.writeHooks && r.readHooks == s.readHooks
  {
    if s.err < 0 then s
    else match Fetch(s.code, s.reg.pc, 1)
      case Failure(e) => s.(err := e)
      case Success(opcodeByte) =>
        var opcode := opcodeByte[0];
        var d := s.instDef[opcode];
        if d.mnemonic.None? || d.cycles == 0 then s.(err := ErrUnknownInst)
        else match Fetch(s.code, Wrap16(s.reg.pc + 1), d.length)
          case Failure(e) => s.(err := e)
          case Success(ops) =>
            Complete(Executed(s, opcode, d, ops), d.length)
  }

  /** The end of a step whose handler has run: the bounds check on the
      handler's `pc`, then either the default advance past the opcode and its
      operands or, after a jump, the clearing of the jump flag. */
  function Complete(s: State, len: OperandLength): (r: State)
    requires s.Valid()
    ensures r.Valid() && r == s.(err := r.err, reg := r.reg, isJumped := r.isJumped)
  {
    if NoRoom(s.reg.pc, len) then s.(err := ErrCodeOutOfRange)
    else if !s.isJumped then s.(reg := s.reg.(pc := s.reg.pc + 1 + len))
    else s.(isJumped := false)
  }

  /** The step's bounds check: `pc + 1 + len`, computed without wrapping,
      exceeds 0xFFFF. */
  predicate NoRoom(pc: uint16, len: OperandLength) {
    pc + 1 + len > 0xFFFF
  }

  /** `n` steps in a row. */
  function Run(s: State, n: nat): (r: State)
    requires s.Valid()
    ensures r.Valid() && r.code == s.code && r.instDef == s.instDef
    decreases n
  {
    if n == 0 then s else Run(Inc(s), n - 1)
  }
}
