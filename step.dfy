/** The outcomes of one step of `emcs51_core_inc`, path by path: the sticky
    error, the three ways a step aborts before its handler runs, and the
    completed step. */
module Step {
  import opened Emcs51
  import opened Machine
  import opened Semantics

  /** A core holding a negative error code does nothing at all. */
  lemma IncSticky(s: State)
    requires s.Valid() && s.err < 0
    ensures Inc(s) == s
  {
  }

  /** A `pc` at or past the end of the code store: the opcode fetch fails,
      the callback's code becomes the error and nothing else changes. */
  lemma IncOpcodeFetchFails(s: State)
    requires s.Valid() && s.err >= 0 && s.reg.pc >= |s.code|
    ensures Inc(s) == s.(err := ErrCodeOutOfRange)
  {
  }

  /** An opcode nobody registered: the error becomes `ErrUnknownInst`, `pc`
      stays on the opcode and nothing else changes. */
  lemma IncUnknownOpcode(s: State)
    requires s.Valid() && s.err >= 0 && s.reg.pc < |s.code|
    requires s.instDef[s.code[s.reg.pc]].IsUndefined()
    ensures Inc(s) == s.(err := ErrUnknownInst)
  {
  }

  /** The operand bytes run past the end of the code store: the operand
      fetch fails and nothing else changes; the operand buffer is not
      touched. */
  lemma IncOperandFetchFails(s: State)
    requires s.Valid() && s.err >= 0 && s.reg.pc < |s.code|
    requires !s.instDef[s.code[s.reg.pc]].IsUndefined()
    requires Wrap16(s.reg.pc + 1) + s.instDef[s.code[s.reg.pc]].length > |s.code|
    ensures Inc(s) == s.(err := ErrCodeOutOfRange)
  {
  }

  /** Both fetches succeed: the operand bytes that follow the opcode are
      loaded, the handler runs and the step completes. */
  lemma IncExecutes(s: State, opcode: uint8, d: InstDef, ops: seq<uint8>)
    requires s.Valid() && s.err >= 0 && s.reg.pc < |s.code|
    requires opcode == s.code[s.reg.pc] && d == s.instDef[opcode] && !d.IsUndefined()
    requires Wrap16(s.reg.pc + 1) + d.length <= |s.code|
    requires ops == s.code[Wrap16(s.reg.pc + 1)..Wrap16(s.reg.pc + 1) + d.length]
    ensures Inc(s) == Complete(Executed(s, opcode, d, ops), d.length)
  {
    assert s.code[s.reg.pc..s.reg.pc + 1] == [opcode];
    assert Fetch(s.code, s.reg.pc, 1) == Success([opcode]);
    assert Fetch(s.code, Wrap16(s.reg.pc + 1), d.length) == Success(ops);
  }
}
