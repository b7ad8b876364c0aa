/** Properties of the operations of src/core/emcs51_core.c other than the
    step: table registration, the register-bank accessors and the data
    pointer. */
module CoreProperties {
  import opened Emcs51
  import opened Machine

  // ----- registration -----

  /** Registering `d` at each opcode of `start .. start+i-1`, one opcode at a
      time: the reference for `InstAddRange`. */
  function AddEach(s: State, start: uint8, i: nat, d: InstDef): (r: State)
    requires s.Valid() && start + i <= 256
    ensures r.Valid()
    decreases i
  {
    if i == 0 then s else InstAdd(AddEach(s, start, i - 1, d), start + i - 1, d)
  }

  /** `AddEach` overwrites exactly its range and leaves the rest of the core
      alone. */
  lemma {:induction false} AddEachSlots(s: State, start: uint8, i: nat, d: InstDef)
    requires s.Valid() && start + i <= 256
    ensures AddEach(s, start, i, d) == s.(instDef := AddEach(s, start, i, d).instDef)
    ensures forall op :: 0 <= op < 256 ==>
      AddEach(s, start, i, d).instDef[op] == if start <= op < start + i then d else s.instDef[op]
    decreases i
  {
    if i > 0 {
      AddEachSlots(s, start, i - 1, d);
    }
  }

  /** A range registration within the table is the same as registering each
      of its opcodes in turn, as the source's loop does. */
  lemma InstAddRangeIsEachAdd(s: State, start: uint8, len: uint8, d: InstDef)
    requires s.Valid() && len > 0 && start + len <= 256
    ensures InstAddRange(s, start, len, d) == AddEach(s, start, len, d)
  {
    AddEachSlots(s, start, len, d);
    assert InstAddRange(s, start, len, d).instDef == AddEach(s, start, len, d).instDef;
  }

  /** A later registration of the same opcode replaces the earlier one. */
  lemma InstAddLastWins(s: State, opcode: uint8, d1: InstDef, d2: InstDef)
    requires s.Valid()
    ensures InstAdd(InstAdd(s, opcode, d1), opcode, d2) == InstAdd(s, opcode, d2)
  {
    assert InstAdd(InstAdd(s, opcode, d1), opcode, d2).instDef == InstAdd(s, opcode, d2).instDef;
  }

  /** Registrations of different opcodes do not interfere: their order does
      not matter. */
  lemma InstAddCommutes(s: State, op1: uint8, d1: InstDef, op2: uint8, d2: InstDef)
    requires s.Valid() && op1 != op2
    ensures InstAdd(InstAdd(s, op1, d1), op2, d2) == InstAdd(InstAdd(s, op2, d2), op1, d1)
  {
    assert InstAdd(InstAdd(s, op1, d1), op2, d2).instDef == InstAdd(InstAdd(s, op2, d2), op1, d1).instDef;
  }

  /** A later hook registration at the same address replaces both hooks of
      the earlier one. */
  lemma RegAddLastWins(s: State, addr: uint8, w1: Option<HookId>, r1: Option<HookId>, w2: Option<HookId>, r2: Option<HookId>)
    requires s.Valid()
    ensures RegAdd(RegAdd(s, addr, w1, r1), addr, w2, r2) == RegAdd(s, addr, w2, r2)
  {
    assert RegAdd(RegAdd(s, addr, w1, r1), addr, w2, r2).writeHooks == RegAdd(s, addr, w2, r2).writeHooks;
    assert RegAdd(RegAdd(s, addr, w1, r1), addr, w2, r2).readHooks == RegAdd(s, addr, w2, r2).readHooks;
  }

  // ----- general-purpose registers -----

  /** The eight registers of a bank sit at eight distinct addresses, and the
      four banks tile the addresses 0 .. 31. */
  lemma GprAddrInjective(psw1: uint8, n1: uint8, psw2: uint8, n2: uint8)
    requires n1 <= 7 && n2 <= 7
    ensures GprAddr(psw1, n1) == GprAddr(psw2, n2) <==> Bank(psw1) == Bank(psw2) && n1 == n2
  {
  }

  /** Writing a register and reading it back gives the value written. */
  lemma ReadAfterWriteGpr(s: State, n: uint8, v: uint8)
    requires s.Valid() && n <= 7
    ensures ReadGpr(WriteGpr(s, n, v), n) == Success(v)
  {
  }

  /** Writing one register leaves every other register of the bank as it
      was. */
  lemma ReadOtherAfterWriteGpr(s: State, n: uint8, m: uint8, v: uint8)
    requires s.Valid() && n <= 7 && m <= 7 && n != m
    ensures ReadGpr(WriteGpr(s, n, v), m) == ReadGpr(s, m)
  {
  }

  /** Writing back the value just read changes nothing. */
  lemma WriteGprOfReadGpr(s: State, n: uint8)
    requires s.Valid() && n <= 7
    ensures WriteGpr(s, n, ReadGpr(s, n).value) == s
  {
    assert WriteGpr(s, n, ReadGpr(s, n).value).dataRam == s.dataRam;
  }

  /** A register number above 7 is refused by both accessors, which then
      leave the core untouched. */
  lemma GprRefused(s: State, n: uint8, v: uint8)
    requires s.Valid() && n > 7
    ensures ReadGpr(s, n) == Failure(Err) && WriteGpr(s, n, v) == s
  {
  }

  // ----- data pointer -----

  /** Splitting a word into its bytes and joining them gives the word back. */
  lemma WordOfBytes(w: uint16)
    ensures Word(Hi(w), Lo(w)) == w
  {
  }

  /** Reading the data pointer after writing it gives the value written. */
  lemma DptrAfterWithDptr(s: State, v: uint16)
    requires s.Valid()
    ensures Dptr(WithDptr(s, v)) == v
  {
    WordOfBytes(v);
  }

  /** Writing back the data pointer just read changes nothing. */
  lemma WithDptrOfDptr(s: State)
    requires s.Valid()
    ensures WithDptr(s, Dptr(s)) == s
  {
    assert WithDptr(s, Dptr(s)).dataRam == s.dataRam;
  }

  /** The data pointer is big-endian: DPH carries the high byte. */
  lemma DptrBigEndian(s: State)
    requires s.Valid()
    ensures Dptr(s) as int == s.dataRam[Dph] as int * 0x100 + s.dataRam[Dpl] as int
  {
  }

  // ----- initialisation and reset -----

  /** Reset clears only the register file: an error already raised, the RAM,
      the tables and the hooks survive it; a second reset changes nothing. */
  lemma ResetKeepsAllButRegs(s: State)
    requires s.Valid()
    ensures Reset(s).err == s.err && Reset(s).dataRam == s.dataRam && Reset(s).instDef == s.instDef
    ensures Reset(s).writeHooks == s.writeHooks && Reset(s).isJumped == s.isJumped
    ensures Reset(Reset(s)) == Reset(s)
  {
  }
}
