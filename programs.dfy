/** What `emcs51_general_inst_init` installs, and whole runs of short
    programs: the ones the repository's tests execute, and a DJNZ countdown
    loop. */
module Programs {
  import opened Emcs51
  import opened Machine
  import opened Semantics
  import opened Step
  import InstProperties

  // ----- the installed instruction set -----

  /** The descriptor each opcode should carry once the general instructions
      are installed, read off the 8051 opcode map; `NoInst` where none is. */
  function ExpectedDef(op: uint8): InstDef {
    if op == 0x00 then NopDef
    else if op == 0x02 then LjmpDef
    else if op == 0x75 then MovDirectImmedDef
    else if 0x78 <= op <= 0x7F then MovRnImmedDef
    else if op == 0x80 then SjmpDef
    else if op == 0x90 then MovDptrImmedDef
    else if op == 0xA3 then IncDptrDef
    else if op == 0xC2 then ClrBitDef
    else if op == 0xD2 then SetBitDef
    else if 0xD8 <= op <= 0xDF then DjnzRnDef
    else if op == 0xE4 then ClrADef
    else if op == 0xF0 then MovxAtDptrADef
    else if 0xF6 <= op <= 0xF7 then MovAtRiADef
    else NoInst
  }

  /** The opcodes the general instructions occupy, in ascending order. */
  const Installed: seq<uint8> := [
    0x00, 0x02, 0x75, 0x78, 0x79, 0x7A, 0x7B, 0x7C, 0x7D, 0x7E, 0x7F, 0x80, 0x90,
    0xA3, 0xC2, 0xD2, 0xD8, 0xD9, 0xDA, 0xDB, 0xDC, 0xDD, 0xDE, 0xDF, 0xE4, 0xF0,
    0xF6, 0xF7 ]

  /** The 13 handlers sit on 28 distinct opcodes. */
  lemma {:induction false} InstalledCount()
    ensures |Installed| == 28
    ensures forall i, j :: 0 <= i < j < |Installed| ==> Installed[i] < Installed[j]
  {
    forall i, j | 0 <= i < j < |Installed|
      ensures Installed[i] < Installed[j]
    {
      AscendingStep(i, j);
    }
  }

  lemma {:induction false} AscendingStep(i: int, j: int)
    requires 0 <= i < j < |Installed|
    ensures Installed[i] < Installed[j]
    decreases j - i
  {
    if j > i + 1 {
      AscendingStep(i, j - 1);
    }
  }

  /** The general instructions occupy exactly the opcodes of `Installed`,
      and `ExpectedDef` names what they occupy them with. */
  lemma ExpectedDefOccupiesInstalled(op: uint8)
    ensures !ExpectedDef(op).IsUndefined() <==> op in Installed
  {
  }

  /** `emcs51_general_inst_init` writes `ExpectedDef` into every opcode it
      occupies and leaves every other entry, and the rest of the core, as
      it was. */
  lemma GeneralInstInitTable(s: State)
    requires s.Valid()
    ensures GeneralInstInit(s) == s.(instDef := GeneralInstInit(s).instDef)
    ensures forall op: uint8 ::
              GeneralInstInit(s).instDef[op] == if ExpectedDef(op) != NoInst then ExpectedDef(op) else s.instDef[op]
  {
  }

  /** On a freshly initialised core, the table afterwards is exactly
      `ExpectedDef`: the opcodes of `Installed` are defined and every other
      opcode is undefined. */
  lemma InstalledAfterInit(code: seq<uint8>)
    ensures forall op: uint8 :: GeneralInstInit(Init(code)).instDef[op] == ExpectedDef(op)
    ensures forall op: uint8 :: !GeneralInstInit(Init(code)).instDef[op].IsUndefined() <==> op in Installed
  {
    GeneralInstInitTable(Init(code));
    forall op: uint8
      ensures !GeneralInstInit(Init(code)).instDef[op].IsUndefined() <==> op in Installed
    {
      ExpectedDefOccupiesInstalled(op);
    }
  }

  // ----- single steps of the installed instructions -----

  /** A value that fits is stored into a `uint16_t` unchanged. */
  lemma Wrap16Fits(x: int)
    requires 0 <= x < 0x1_0000
    ensures Wrap16(x) == x
  {
  }

  /** The state a step starts its handler from: `len` operand bytes taken
      from just after the opcode at `pc`. */
  function Loaded(s: State, len: OperandLength): State
    requires s.Valid() && s.reg.pc + 1 + len <= |s.code|
  {
    s.(operands := s.code[s.reg.pc + 1..s.reg.pc + 1 + len] + s.operands[len..])
  }

  /** A step of an installed instruction that does not jump, away from the
      top of the address space: the handler runs on the loaded operands and
      `pc` moves past the instruction. */
  lemma {:induction false} PlainStep(s: State, d: InstDef)
    requires s.Valid() && s.err >= 0 && !s.isJumped
    requires s.reg.pc + 1 + d.length <= |s.code| && s.reg.pc + 1 + d.length <= 0xFFFF
    requires d == s.instDef[s.code[s.reg.pc]] && !d.IsUndefined() && d.exec.Some?
    requires !InstProperties.Jumps(d.exec.value)
    ensures var r := Exec(Loaded(s, d.length), s.code[s.reg.pc], d.exec.value);
            Inc(s) == r.(reg := r.reg.(pc := s.reg.pc + 1 + d.length))
  {
    Wrap16Fits(s.reg.pc + 1);
    var ops := s.code[s.reg.pc + 1..s.reg.pc + 1 + d.length];
    IncExecutes(s, s.code[s.reg.pc], d, ops);
    InstProperties.NonJumpingKeepsPc(Loaded(s, d.length), s.code[s.reg.pc], d.exec.value);
  }

  /** NOP: only `pc` moves, by one. */
  lemma {:induction false} NopStep(s: State)
    requires s.Valid() && s.err >= 0 && !s.isJumped
    requires s.reg.pc + 1 <= |s.code| && s.reg.pc + 1 <= 0xFFFF
    requires s.code[s.reg.pc] == 0x00 && s.instDef[0x00] == NopDef
    ensures Inc(s) == s.(reg := s.reg.(pc := s.reg.pc + 1))
  {
    PlainStep(s, NopDef);
    assert Loaded(s, 0).operands == s.operands;
  }

  /** CLR A: the accumulator becomes 0 and `pc` moves by one; nothing else
      changes. */
  lemma {:induction false} ClrAStep(s: State)
    requires s.Valid() && s.err >= 0 && !s.isJumped
    requires s.reg.pc + 1 <= |s.code| && s.reg.pc + 1 <= 0xFFFF
    requires s.code[s.reg.pc] == 0xE4 && s.instDef[0xE4] == ClrADef
    ensures Inc(s) == s.(reg := s.reg.(a := 0, pc := s.reg.pc + 1))
  {
    PlainStep(s, ClrADef);
    assert Loaded(s, 0).operands == s.operands;
  }

  /** MOV direct,#immediate: the write hook at the address (if any) sees the
      value, the byte is stored and `pc` moves by three. */
  lemma {:induction false} MovDirectImmedStep(s: State)
    requires s.Valid() && s.err >= 0 && !s.isJumped
    requires s.reg.pc + 3 <= |s.code| && s.reg.pc + 3 <= 0xFFFF
    requires s.code[s.reg.pc] == 0x75 && s.instDef[0x75] == MovDirectImmedDef
    ensures var addr, v := s.code[s.reg.pc + 1], s.code[s.reg.pc + 2];
            var r := Store(Loaded(s, 2), addr, v);
            Inc(s) == r.(reg := r.reg.(pc := s.reg.pc + 3))
  {
    PlainStep(s, MovDirectImmedDef);
  }

  /** SJMP offset: `pc` becomes the relative target and the jump flag is
      clear again after the step. */
  lemma {:induction false} SjmpStep(s: State)
    requires s.Valid() && s.err >= 0 && !s.isJumped
    requires s.reg.pc + 2 <= |s.code| && s.reg.pc + 2 <= 0xFFFF
    requires s.code[s.reg.pc] == 0x80 && s.instDef[0x80] == SjmpDef
    requires RelTarget(s.reg.pc, s.code[s.reg.pc + 1]) + 2 <= 0xFFFF
    ensures Inc(s) == Loaded(s, 1).(reg := s.reg.(pc := RelTarget(s.reg.pc, s.code[s.reg.pc + 1])))
  {
    Wrap16Fits(s.reg.pc + 1);
    var ops := s.code[s.reg.pc + 1..s.reg.pc + 2];
    IncExecutes(s, 0x80, SjmpDef, ops);
  }

  // ----- runs -----

  /** Running `k + 1` steps is running `k` steps and then one more. */
  lemma {:induction false} RunLast(s: State, k: nat)
    requires s.Valid()
    ensures Run(s, k + 1) == Inc(Run(s, k))
    decreases k
  {
    if k > 0 {
      RunLast(Inc(s), k - 1);
    }
  }

  /** `RunLast`, stated for the last of `k > 0` steps. */
  lemma {:induction false} RunPrev(s: State, k: nat)
    requires s.Valid() && k > 0
    ensures Run(s, k) == Inc(Run(s, k - 1))
  {
    var m: nat := k - 1;
    RunLast(s, m);
    assert m + 1 == k;
  }

  /** Once an error is raised, no number of further steps changes anything. */
  lemma {:induction false} RunSticky(s: State, k: nat)
    requires s.Valid() && s.err < 0
    ensures Run(s, k) == s
    decreases k
  {
    if k > 0 {
      IncSticky(s);
      RunSticky(s, k - 1);
    }
  }

  /** A freshly initialised core with the general instructions installed,
      serving `code`: where every test starts. */
  function Boot(code: seq<uint8>): (s: State)
    ensures s.Valid() && s == Init(code).(instDef := s.instDef)
    ensures forall op: uint8 :: s.instDef[op] == ExpectedDef(op)
  {
    InstalledAfterInit(code);
    GeneralInstInitTable(Init(code));
    GeneralInstInit(Init(code))
  }

  /** Stepping onto an opcode that is not installed stops the core for good
      with `ErrUnknownInst`, whatever else the code holds. */
  lemma UnknownOpcodeStops(code: seq<uint8>, k: nat)
    requires |code| > 0 && code[0] !in Installed && k > 0
    ensures Run(Boot(code), k) == Boot(code).(err := ErrUnknownInst)
  {
    var s := Boot(code);
    ExpectedDefOccupiesInstalled(code[0]);
    IncUnknownOpcode(s);
    RunSticky(Inc(s), k - 1);
  }

  /** A run of `k` NOPs from `pc` moves `pc` by `k` and changes nothing
      else. */
  lemma {:induction false} NopSled(s: State, k: nat)
    requires s.Valid() && s.err >= 0 && !s.isJumped && s.instDef[0x00] == NopDef
    requires s.reg.pc + k <= |s.code| && s.reg.pc + k <= 0xFFFF
    requires forall i :: s.reg.pc <= i < s.reg.pc + k ==> s.code[i] == 0x00
    ensures Run(s, k) == s.(reg := s.reg.(pc := s.reg.pc + k))
    decreases k
  {
    if k > 0 {
      NopSled(s, k - 1);
      var r := Run(s, k - 1);
      assert r == s.(reg := s.reg.(pc := s.reg.pc + k - 1));
      NopStep(r);
      RunPrev(s, k);
    }
  }

  /** The NOP test: four NOPs move `pc` to 1, 2, 3 and 4 with no error; the
      fifth step runs off the code store and stops with
      `ErrCodeOutOfRange`. */
  lemma NopProgram()
    ensures var s := Boot([0x00, 0x00, 0x00, 0x00]);
            (forall k :: 0 <= k <= 4 ==> Run(s, k) == s.(reg := s.reg.(pc := k)))
            && Run(s, 5) == s.(reg := s.reg.(pc := 4), err := ErrCodeOutOfRange)
  {
    var s := Boot([0x00, 0x00, 0x00, 0x00]);
    assert s.instDef[0x00] == NopDef;
    forall k | 0 <= k <= 4
      ensures Run(s, k) == s.(reg := s.reg.(pc := k))
    {
      NopSled(s, k);
    }
    RunLast(s, 4);
    IncOpcodeFetchFails(Run(s, 4));
  }

  /** `k` NOPs followed by an SJMP whose offset is -(k + 2) bring `pc` back
      to 0 after `k + 1` steps, with no error. */
  lemma {:induction false} SledThenSjmpBack(s: State, k: nat)
    requires s.Valid() && s.err >= 0 && !s.isJumped && s.reg.pc == 0
    requires s.instDef[0x00] == NopDef && s.instDef[0x80] == SjmpDef
    requires k <= 126 && |s.code| == k + 2
    requires forall i :: 0 <= i < k ==> s.code[i] == 0x00
    requires s.code[k] == 0x80 && s.code[k + 1] == Wrap8(-(k + 2))
    ensures Run(s, k + 1).reg.pc == 0 && Run(s, k + 1).err == s.err
  {
    NopSled(s, k);
    var r := Run(s, k);
    InstProperties.RelTargetReaches(k, -(k + 2));
    SjmpStep(r);
    RunLast(s, k);
  }

  /** The first SJMP test: NOP, then SJMP -3 back to address 0. */
  lemma SjmpProgram1()
    ensures var s := Boot([0x00, 0x80, 0xFD]);
            Run(s, 2).reg.pc == 0 && Run(s, 2).err == Ok
  {
    var s := Boot([0x00, 0x80, 0xFD]);
    assert s.instDef[0x00] == NopDef && s.instDef[0x80] == SjmpDef;
    SledThenSjmpBack(s, 1);
  }

  /** The second SJMP test: two NOPs, then SJMP -4 back to address 0. */
  lemma SjmpProgram2()
    ensures var s := Boot([0x00, 0x00, 0x80, 0xFC]);
            Run(s, 3).reg.pc == 0 && Run(s, 3).err == Ok
  {
    var s := Boot([0x00, 0x00, 0x80, 0xFC]);
    assert s.instDef[0x00] == NopDef && s.instDef[0x80] == SjmpDef;
    SledThenSjmpBack(s, 2);
  }

  /** `MovDirectImmedStep` with a write hook registered at the address: the
      hook sees the value, which lands in RAM, and the step moves on. */
  lemma {:induction false} MovDirectHookedStep(s: State, hook: HookId)
    requires s.Valid() && s.err >= 0 && !s.isJumped
    requires s.reg.pc + 3 <= |s.code| && s.reg.pc + 3 <= 0xFFFF
    requires s.code[s.reg.pc] == 0x75 && s.instDef[0x75] == MovDirectImmedDef
    requires s.writeHooks[s.code[s.reg.pc + 1]] == Some(hook)
    ensures var addr, v := s.code[s.reg.pc + 1], s.code[s.reg.pc + 2];
            var t := Inc(s);
            t.hookLog == s.hookLog + [HookCall(hook, addr, v)] && t.dataRam[addr] == v
            && t.err == s.err && !t.isJumped && t.reg.pc == s.reg.pc + 3
            && t.code == s.code && t.instDef == s.instDef && t.writeHooks == s.writeHooks
  {
    MovDirectImmedStep(s);
  }

  /** The MOV direct,#immediate test: with a write hook on port P0 (0x80),
      two moves hand the hook 0xAA and then 0x55, and P0 ends at 0x55. */
  lemma MovDirectProgram(hook: HookId)
    ensures var s := RegAdd(Boot([0x75, 0x80, 0xAA, 0x75, 0x80, 0x55]), 0x80, Some(hook), None);
            Inc(s).hookLog == [HookCall(hook, 0x80, 0xAA)]
            && Inc(Inc(s)).hookLog == [HookCall(hook, 0x80, 0xAA), HookCall(hook, 0x80, 0x55)]
            && Inc(Inc(s)).dataRam[0x80] == 0x55 && Inc(Inc(s)).err == Ok && Inc(Inc(s)).reg.pc == 6
  {
    var s := RegAdd(Boot([0x75, 0x80, 0xAA, 0x75, 0x80, 0x55]), 0x80, Some(hook), None);
    assert s.instDef[0x75] == ExpectedDef(0x75) == MovDirectImmedDef;
    assert s.writeHooks[0x80] == Some(hook) && s.hookLog == [] && s.reg.pc == 0;
    MovDirectHookedStep(s, hook);
    MovDirectHookedStep(Inc(s), hook);
  }

  // ----- a DJNZ countdown -----

  /** `s` is about to run `DJNZ Rn,$` (opcode 0xD8 + n, offset 0xFE), away
      from the top of the address space. */
  predicate AtDjnzSelfLoop(s: State, n: uint8)
    requires s.Valid()
  {
    && n <= 7 && s.err >= 0 && !s.isJumped
    && s.reg.pc + 2 <= |s.code| && s.reg.pc + 2 <= 0xFFFF
    && s.code[s.reg.pc] == 0xD8 + n && s.code[s.reg.pc + 1] == 0xFE
    && s.instDef[0xD8 + n] == DjnzRnDef
  }

  /** `r` is `s` after some iterations of the loop: the same in everything
      the loop can touch, except that register `n` holds `v`. */
  predicate Counting(r: State, s: State, n: uint8, v: uint8)
    requires r.Valid() && s.Valid() && n <= 7
  {
    && r.code == s.code && r.instDef == s.instDef && r.reg == s.reg
    && r.isJumped == s.isJumped && r.err == s.err && r.hookLog == s.hookLog
    && r.dataRam == s.dataRam[GprAddr(s.reg.psw, n) := v]
  }

  /** The DJNZ handler on a loaded `DJNZ Rn,$`: the register is
      decremented; unless it reached 0, the handler jumps onto itself. */
  lemma {:induction false} DjnzSelfLoopExec(l: State, n: uint8, v: uint8)
    requires l.Valid() && n <= 7 && !l.isJumped && l.operands[0] == 0xFE
    requires ReadGpr(l, n) == Success(v)
    ensures var r := l.(dataRam := l.dataRam[GprAddr(l.reg.psw, n) := Wrap8(v - 1)]);
            ExecDjnzRn(l, 0xD8 + n) == if v == 1 then r else r.(isJumped := true)
  {
    assert Wrap8(0xD8 + n - 0xD8) == n;
    InstProperties.RelTargetSelf(l.reg.pc);
  }

  /** One step of `DJNZ Rn,$`: the register is decremented and `pc` stays
      on the instruction, or moves past it when the register reaches 0. */
  lemma {:induction false} DjnzStep(r: State, n: uint8)
    requires r.Valid() && AtDjnzSelfLoop(r, n)
    ensures var addr := GprAddr(r.reg.psw, n);
            var v := r.dataRam[addr];
            Inc(r) == Loaded(r, 1).(dataRam := r.dataRam[addr := Wrap8(v as int - 1)],
                                    reg := r.reg.(pc := if v == 1 then r.reg.pc + 2 else r.reg.pc))
  {
    Wrap16Fits(r.reg.pc + 1);
    var ops := r.code[r.reg.pc + 1..r.reg.pc + 2];
    IncExecutes(r, 0xD8 + n, DjnzRnDef, ops);
    DjnzSelfLoopExec(Loaded(r, 1), n, r.dataRam[GprAddr(r.reg.psw, n)]);
  }

  /** The state `DjnzStep` describes for a register that was `v > 1` is
      still counting, at `v - 1`. */
  lemma {:induction false} CountingAfterDecrement(r: State, s: State, n: uint8, v: uint8)
    requires r.Valid() && s.Valid() && AtDjnzSelfLoop(s, n) && Counting(r, s, n, v) && v > 1
    requires r.reg.pc + 2 <= |r.code|
    ensures Counting(Loaded(r, 1).(dataRam := r.dataRam[GprAddr(r.reg.psw, n) := Wrap8(v as int - 1)]), s, n, v - 1)
  {
    var addr := GprAddr(s.reg.psw, n);
    assert r.reg == s.reg;
    assert r.dataRam[addr := v - 1] == s.dataRam[addr := v - 1];
  }

  /** The loop keeps counting: from register value `v > 1`, one step leaves
      the register at `v - 1` and everything else the loop touches as it
      was. */
  lemma {:induction false} CountingInc(r: State, s: State, n: uint8, v: uint8)
    requires r.Valid() && s.Valid() && AtDjnzSelfLoop(s, n) && Counting(r, s, n, v) && v > 1
    ensures Counting(Inc(r), s, n, v - 1)
  {
    var addr := GprAddr(s.reg.psw, n);
    assert AtDjnzSelfLoop(r, n);
    assert r.dataRam[addr] == v;
    DjnzStep(r, n);
    CountingAfterDecrement(r, s, n, v);
  }

  /** `Inc` under a name of its own, so that the counting hypothesis below
      fires only where a proof names the next state. */
  function Next(s: State): (r: State)
    requires s.Valid()
    ensures r.Valid() && r == Inc(s)
  {
    Inc(s)
  }

  /** From a counting state with register value `v`, the next `m < v`
      steps keep counting, down to `v - m`, given that each step from a
      counting state above 1 counts down by one. */
  lemma {:induction false} CountingRun(r: State, s: State, n: uint8, v: uint8, m: nat)
    requires r.Valid() && s.Valid() && n <= 7 && Counting(r, s, n, v) && m < v
    requires forall x: State, w: uint8 {:trigger Next(x), Counting(x, s, n, w)} ::
               x.Valid() && Counting(x, s, n, w) && w > 1 ==> Counting(Next(x), s, n, w - 1)
    ensures Counting(Run(r, m), s, n, v - m)
    decreases m
  {
    if m > 0 {
      CountingRun(Next(r), s, n, v - 1, m - 1);
    }
  }

  /** Zero steps: the loop has not started counting. */
  lemma {:induction false} CountingStart(s: State, n: uint8, k: uint8)
    requires s.Valid() && n <= 7 && ReadGpr(s, n) == Success(k)
    ensures Counting(s, s, n, k)
  {
    assert s.dataRam == s.dataRam[GprAddr(s.reg.psw, n) := k];
  }

  /** What `Counting` says about the registers the loop's observer reads. */
  lemma CountingObserved(r: State, s: State, n: uint8, v: uint8)
    requires r.Valid() && s.Valid() && n <= 7 && Counting(r, s, n, v)
    ensures r.reg.pc == s.reg.pc && ReadGpr(r, n) == Success(v)
  {
  }

  /** From register value `k > 0`, the first `j < k` steps of `DJNZ Rn,$`
      stay on the loop and count the register down to `k - j`. */
  lemma {:induction false} DjnzCountsDown(s: State, n: uint8, k: uint8, j: nat)
    requires s.Valid() && AtDjnzSelfLoop(s, n) && ReadGpr(s, n) == Success(k) && j < k
    ensures Counting(Run(s, j), s, n, k - j)
  {
    CountingStart(s, n, k);
    forall x: State, w: uint8 {:trigger Next(x), Counting(x, s, n, w)}
      | x.Valid() && Counting(x, s, n, w) && w > 1
      ensures Counting(Next(x), s, n, w - 1)
    {
      CountingInc(x, s, n, w);
    }
    CountingRun(s, s, n, k, j);
  }

  /** The last iteration: from register value 1 the step clears the
      register and leaves the loop. */
  lemma {:induction false} DjnzLeaves(r: State, s: State, n: uint8)
    requires r.Valid() && s.Valid() && AtDjnzSelfLoop(s, n) && Counting(r, s, n, 1)
    ensures Inc(r).reg.pc == s.reg.pc + 2 && ReadGpr(Inc(r), n) == Success(0)
    ensures Inc(r).err == s.err && !Inc(r).isJumped
  {
    var addr := GprAddr(s.reg.psw, n);
    assert AtDjnzSelfLoop(r, n);
    assert r.dataRam[addr] == 1;
    DjnzStep(r, n);
    assert Inc(r) == Loaded(r, 1).(dataRam := r.dataRam[addr := 0], reg := r.reg.(pc := r.reg.pc + 2));
  }

  /** `DJNZ Rn,$` with `k > 0` in the register: after `j < k` steps `pc` is
      still on the loop; after `k` steps the register is 0, `pc` has moved
      past the instruction and no error was raised. */
  lemma DjnzLoop(s: State, n: uint8, k: uint8)
    requires s.Valid() && AtDjnzSelfLoop(s, n) && ReadGpr(s, n) == Success(k) && k > 0
    ensures forall j :: 0 <= j < k ==> Run(s, j).reg.pc == s.reg.pc && ReadGpr(Run(s, j), n) == Success(k - j)
    ensures Run(s, k).reg.pc == s.reg.pc + 2 && ReadGpr(Run(s, k), n) == Success(0)
    ensures Run(s, k).err == s.err && !Run(s, k).isJumped
  {
    forall j | 0 <= j < k
      ensures Run(s, j).reg.pc == s.reg.pc && ReadGpr(Run(s, j), n) == Success(k - j)
    {
      DjnzCountsDown(s, n, k, j);
      CountingObserved(Run(s, j), s, n, k - j);
    }
    DjnzCountsDown(s, n, k, k - 1);
    assert k - (k - 1) == 1;
    DjnzLeaves(Run(s, k - 1), s, n);
    RunPrev(s, k);
  }

  /** `DJNZ Rn,$` with 0 in the register: the decrement wraps to 255 and the
      branch is taken, so the loop runs 256 times before it falls through. */
  lemma {:induction false} DjnzLoopFromZero(s: State, n: uint8)
    requires s.Valid() && AtDjnzSelfLoop(s, n) && ReadGpr(s, n) == Success(0)
    ensures Run(s, 256).reg.pc == s.reg.pc + 2 && ReadGpr(Run(s, 256), n) == Success(0)
    ensures Run(s, 256).err == s.err && !Run(s, 256).isJumped
  {
    var addr := GprAddr(s.reg.psw, n);
    DjnzStep(s, n);
    var t := Loaded(s, 1).(dataRam := s.dataRam[addr := 255]);
    assert Inc(s) == t;
    assert t.Valid();
    assert t.reg == s.reg && t.code == s.code && t.instDef == s.instDef;
    assert AtDjnzSelfLoop(t, n);
    assert ReadGpr(t, n) == Success(255);
    DjnzLoop(t, n, 255);
    assert Run(s, 256) == Run(t, 255);
  }

  /** MOV Rn,#immediate: register `n` of the current bank receives the
      operand and `pc` moves by two. */
  lemma {:induction false} MovRnImmedStep(s: State, n: uint8)
    requires s.Valid() && s.err >= 0 && !s.isJumped && n <= 7
    requires s.reg.pc + 2 <= |s.code| && s.reg.pc + 2 <= 0xFFFF
    requires s.code[s.reg.pc] == 0x78 + n && s.instDef[0x78 + n] == MovRnImmedDef
    ensures var r := Store(Loaded(s, 1), GprAddr(s.reg.psw, n), s.code[s.reg.pc + 1]);
            Inc(s) == r.(reg := r.reg.(pc := s.reg.pc + 2))
  {
    PlainStep(s, MovRnImmedDef);
    assert (0x78 + n) % 8 == n;
  }

  /** `MOV Rn,#k` followed by `DJNZ Rn,$` at address 0, with `k > 0`: after
      the move and `k` DJNZ steps the register is 0, `pc` is past the loop
      and no error was raised. */
  lemma {:induction false} CountdownProgram(s: State, n: uint8, k: uint8)
    requires s.Valid() && s.err >= 0 && !s.isJumped && s.reg.pc == 0 && n <= 7 && k > 0
    requires s.instDef[0x78 + n] == MovRnImmedDef && s.instDef[0xD8 + n] == DjnzRnDef
    requires s.code == [0x78 + n, k, 0xD8 + n, 0xFE]
    ensures Run(s, k + 1).reg.pc == 4 && ReadGpr(Run(s, k + 1), n) == Success(0)
    ensures Run(s, k + 1).err == s.err
  {
    MovRnImmedStep(s, n);
    var t := Inc(s);
    assert t.reg.pc == 2 && ReadGpr(t, n) == Success(k);
    DjnzLoop(t, n, k);
  }
}
