/** The state of one emulated 8051 core (the `emcs51_core_t` object) as a
    value, and the operations of src/core/emcs51_core.c other than the step
    as functions on that value. The class in core.dfy is proved against these. */
module Machine {
  import opened Emcs51

  /** The source's `uint8_t` and `uint16_t`, as integer ranges. */
  type uint8 = x: int | 0 <= x < 0x100
  type uint16 = x: int | 0 <= x < 0x1_0000

  /** An arithmetic result stored into a `uint8_t`: truncation modulo 256. */
  function Wrap8(x: int): uint8 {
    x % 0x100
  }

  /** An arithmetic result stored into a `uint16_t`: truncation modulo 65536. */
  function Wrap16(x: int): uint16 {
    x % 0x1_0000
  }

  /** `x + 1` stored into a `uint16_t` (the `++` of the source): 0xFFFF
      wraps to 0. */
  function Succ16(x: uint16): uint16 {
    if x == 0xFFFF then 0 else x + 1
  }

  datatype Option<T> = None | Some(value: T)

  datatype Result<T> = Success(value: T) | Failure(code: int)

  /** Operand bytes of one instruction: the core's operand buffer holds four. */
  type OperandLength = n: int | 0 <= n <= 4

  /** The execution handlers of src/instruction/emcs51_general_inst.c, as the
      tags that stand for the handler pointers stored in the opcode table. */
  datatype Handler =
    | Nop | Ljmp | MovDirectImmed | MovRnImmed | Sjmp | MovDptrImmed | IncDptr
    | ClrBit | SetBit | DjnzRn | ClrA | MovxAtDptrA | MovAtRiA

  /** One opcode-table entry (`emcs51_inst_def_t`). */
  datatype InstDef = InstDef(mnemonic: Option<string>, length: OperandLength, cycles: uint8, exec: Option<Handler>)
  {
    /** The step's sentinel for an opcode that nobody registered. */
    predicate IsUndefined() {
      mnemonic.None? || cycles == 0
    }
  }

  /** The all-zero entry that a freshly initialised table holds. */
  const NoInst := InstDef(None, 0, 0, None)

  /** A host-side peripheral callback, known only by identity. */
  type HookId = nat

  /** One invocation of a write hook, with the address and byte it was given. */
  datatype HookCall = HookCall(hook: HookId, addr: uint8, value: uint8)

  /** The register file (`emcs51_core_reg_t`); `psw` is the raw flag byte. */
  datatype Regs = Regs(a: uint8, b: uint8, sp: uint8, pc: uint16, psw: uint8)

  const ZeroRegs := Regs(0, 0, 0, 0, 0)

  /** The whole core. `code` is the store served by the code-fetch callback,
      `xdata` the contents of the borrowed external RAM (empty until one is
      configured), and `hookLog` the write-hook calls made so far. */
  datatype State = State(
    err: int,
    dataRam: seq<uint8>,
    xdata: seq<uint8>,
    reg: Regs,
    code: seq<uint8>,
    instDef: seq<InstDef>,
    writeHooks: seq<Option<HookId>>,
    readHooks: seq<Option<HookId>>,
    operands: seq<uint8>,
    isJumped: bool,
    hookLog: seq<HookCall>)
  {
    predicate Valid() {
      |dataRam| == 256 && |instDef| == 256 && |writeHooks| == 256 && |readHooks| == 256 && |operands| == 4
    }
  }

  /** `emcs51_core_init`: the whole core zeroed, with the given code store. */
  function Init(code: seq<uint8>): (s: State)
    ensures s.Valid() && s.err == Ok && s.reg == ZeroRegs && !s.isJumped && s.code == code
    ensures s.xdata == [] && s.hookLog == []
    ensures forall i :: 0 <= i < 256 ==> s.dataRam[i] == 0 && s.instDef[i].IsUndefined()
    ensures forall i :: 0 <= i < 256 ==> s.writeHooks[i].None? && s.readHooks[i].None?
  {
    State(Ok, seq(256, _ => 0), [], ZeroRegs, code, seq(256, _ => NoInst),
          seq(256, _ => None), seq(256, _ => None), seq(4, _ => 0), false, [])
  }

  /** True of the opcodes that `InstAddRange(s, start, len, d)` overwrites. */
  predicate InRange(start: uint8, len: uint8, op: int) {
    start + len <= 256 && start <= op < start + len
  }

  /** `emcs51_core_inst_add_range`: a range that is empty or runs past the
      table is ignored; otherwise each slot of the range receives `d`. */
  function InstAddRange(s: State, start: uint8, len: uint8, d: InstDef): (r: State)
    requires s.Valid()
    ensures r.Valid() && r == s.(instDef := r.instDef)
    ensures forall op :: 0 <= op < 256 ==> r.instDef[op] == if InRange(start, len, op) then d else s.instDef[op]
    ensures len == 0 || start + len > 256 ==> r == s
  {
    if len == 0 || start + len > 256 then s
    else
      var lo, hi := start, start + len;
      s.(instDef := s.instDef[..lo] + seq(len, _ => d) + s.instDef[hi..])
  }

  /** `emcs51_core_inst_add`: exactly slot `opcode` receives `d`. */
  function InstAdd(s: State, opcode: uint8, d: InstDef): (r: State)
    requires s.Valid()
    ensures r.Valid() && r == s.(instDef := r.instDef)
    ensures forall op :: 0 <= op < 256 ==> r.instDef[op] == if op == opcode then d else s.instDef[op]
  {
    s.(instDef := s.instDef[opcode := d])
  }

  /** `emcs51_core_reg_add`: installs (or clears) both hooks at `addr`. */
  function RegAdd(s: State, addr: uint8, write: Option<HookId>, read: Option<HookId>): (r: State)
    requires s.Valid()
    ensures r.Valid() && r == s.(writeHooks := r.writeHooks, readHooks := r.readHooks)
    ensures forall a :: 0 <= a < 256 ==> r.writeHooks[a] == (if a == addr then write else s.writeHooks[a])
    ensures forall a :: 0 <= a < 256 ==> r.readHooks[a] == (if a == addr then read else s.readHooks[a])
  {
    s.(writeHooks := s.writeHooks[addr := write], readHooks := s.readHooks[addr := read])
  }

  /** `emcs51_core_set_xdata_ram`: the external RAM becomes the given buffer,
      whose length is the configured size. */
  function SetXdataRam(s: State, buffer: seq<uint8>): (r: State)
    ensures r.xdata == buffer && r == s.(xdata := buffer)
  {
    s.(xdata := buffer)
  }

  /** `emcs51_core_reset`: only the register file is cleared. */
  function Reset(s: State): (r: State)
    ensures r.reg == ZeroRegs && r == s.(reg := ZeroRegs)
  {
    s.(reg := ZeroRegs)
  }

  /** The register bank selected by PSW bits 3 and 4. */
  function Bank(psw: uint8): (rs: uint8)
    ensures rs <= 3
  {
    (psw / 8) % 4
  }

  /** Internal-RAM address of general-purpose register `n` in the current bank. */
  function GprAddr(psw: uint8, n: uint8): (addr: uint8)
    requires n <= 7
    ensures addr < 32 && addr == Bank(psw) * 8 + n
  {
    Bank(psw) * 8 + n
  }

  /** Status that `emcs51_core_read_GPR` and `emcs51_core_write_GPR` return. */
  function GprStatus(n: uint8): (status: int)
    ensures status == Ok || status == Err
    ensures status == Err <==> n > 7
  {
    if n > 7 then Err else Ok
  }

  /** `emcs51_core_read_GPR`: register `n` of the current bank, or `Err`. */
  function ReadGpr(s: State, n: uint8): (r: Result<uint8>)
    requires s.Valid()
    ensures r.Failure? <==> n > 7
    ensures r.Failure? ==> r.code == Err
  {
    if n > 7 then Failure(Err) else Success(s.dataRam[GprAddr(s.reg.psw, n)])
  }

  /** `emcs51_core_write_GPR`: stores `v` in register `n` of the current bank;
      with `n > 7` nothing changes. */
  function WriteGpr(s: State, n: uint8, v: uint8): (r: State)
    requires s.Valid()
    ensures r.Valid() && r == s.(dataRam := r.dataRam)
    ensures n > 7 ==> r == s
    ensures n <= 7 ==> forall a :: 0 <= a < 256 && a != GprAddr(s.reg.psw, n) ==> r.dataRam[a] == s.dataRam[a]
  {
    if n > 7 then s else s.(dataRam := s.dataRam[GprAddr(s.reg.psw, n) := v])
  }

  /** Internal-RAM addresses of the data-pointer bytes (DPH, DPL). */
  const Dph: int := 0x82
  const Dpl: int := 0x83

  /** The high byte of a word. */
  function Hi(w: uint16): uint8 {
    w / 0x100
  }

  /** The low byte of a word. */
  function Lo(w: uint16): uint8 {
    w % 0x100
  }

  /** The word whose high byte is `hi` and low byte `lo`. */
  function Word(hi: uint8, lo: uint8): (w: uint16)
    ensures Hi(w) == hi && Lo(w) == lo
  {
    hi * 0x100 + lo
  }

  /** `emcs51_core_read_DPTR`: DPH and DPL read as one big-endian word. */
  function Dptr(s: State): (d: uint16)
    requires s.Valid()
    ensures Hi(d) == s.dataRam[Dph] && Lo(d) == s.dataRam[Dpl]
  {
    Word(s.dataRam[Dph], s.dataRam[Dpl])
  }

  /** `emcs51_core_write_DPTR`: stores the high byte of `v` at DPH and the low
      byte at DPL; no other byte of the internal RAM changes. */
  function WithDptr(s: State, v: uint16): (r: State)
    requires s.Valid()
    ensures r.Valid() && r == s.(dataRam := r.dataRam)
    ensures r.dataRam[Dph] == Hi(v) && r.dataRam[Dpl] == Lo(v)
    ensures forall a :: 0 <= a < 256 && a != Dph && a != Dpl ==> r.dataRam[a] == s.dataRam[a]
  {
    s.(dataRam := s.dataRam[Dph := Hi(v)][Dpl := Lo(v)])
  }

  /** The code-fetch callback of the test programs: `len` bytes from `addr`,
      or `ErrCodeOutOfRange` when `addr + len` runs past the code store. */
  function Fetch(code: seq<uint8>, addr: uint16, len: nat): (r: Result<seq<uint8>>)
    ensures r.Success? <==> addr + len <= |code|
    ensures r.Success? ==> |r.value| == len && forall i :: 0 <= i < len ==> r.value[i] == code[addr + i]
    ensures r.Failure? ==> r.code == ErrCodeOutOfRange
  {
    if addr + len > |code| then Failure(ErrCodeOutOfRange)
    else Success(code[addr..addr + len])
  }
}
