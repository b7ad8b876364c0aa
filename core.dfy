/** The core object of src/core/emcs51_core.c (`emcs51_core_t`) and the
    operations on it other than the step. Each method is proved to change the
    object exactly as the matching function of module Machine changes the
    abstract state `Abs()`. */
module Emcs51Core {
  import opened Emcs51
  import opened Machine

  class Core {
    var err: int
    /** The 256-byte internal data RAM. */
    const dataRam: array<uint8>
    /** The borrowed external RAM; its length is the configured size. */
    var xdata: array<uint8>
    var reg: Regs
    /** The code store the fetch callback serves. */
    var code: seq<uint8>
    /** The opcode table and the two hook tables, 256 entries each. */
    var instDef: seq<InstDef>
    var writeHooks: seq<Option<HookId>>
    var readHooks: seq<Option<HookId>>
    /** The operand buffer the step fetches into. */
    const operands: array<uint8>
    var isJumped: bool
    /** Every write-hook call made since the core was initialised. */
    ghost var hookLog: seq<HookCall>

    ghost predicate Valid()
      reads this
    {
      && dataRam.Length == 256 && operands.Length == 4
      && |instDef| == 256 && |writeHooks| == 256 && |readHooks| == 256
      && dataRam != operands && xdata != dataRam && xdata != operands
    }

    ghost function Abs(): (s: State)
      reads this, dataRam, xdata, operands
      ensures Valid() ==> s.Valid()
    {
      State(err, dataRam[..], xdata[..], reg, code, instDef, writeHooks, readHooks,
            operands[..], isJumped, hookLog)
    }

    /** Allocates the core's own storage and initialises it. */
    constructor (code: seq<uint8>)
      ensures Valid() && Abs() == Machine.Init(code)
      ensures fresh(dataRam) && fresh(operands)
    {
      dataRam := new uint8[256];
      xdata := new uint8[0];
      operands := new uint8[4];
      instDef := seq(256, _ => NoInst);
      writeHooks := seq(256, _ => None);
      readHooks := seq(256, _ => None);
      new;
      Init(code);
    }

    /** `emcs51_core_init`: zeroes the whole core in place and keeps the code
        store; the external RAM becomes empty again. */
    method Init(code: seq<uint8>)
      requires Valid()
      modifies this, dataRam, operands
      ensures Valid() && Abs() == Machine.Init(code)
    {
      err := Ok;
      forall i | 0 <= i < 256 {
        dataRam[i] := 0;
      }
      xdata := new uint8[0];
      reg := ZeroRegs;
      this.code := code;
      instDef := seq(256, _ => NoInst);
      writeHooks := seq(256, _ => None);
      readHooks := seq(256, _ => None);
      forall i | 0 <= i < 4 {
        operands[i] := 0;
      }
      isJumped := false;
      hookLog := [];
    }

    /** `emcs51_core_inst_add_range`: copies `d` into each slot of the range. */
    method InstAddRange(start: uint8, len: uint8, d: InstDef)
      requires Valid()
      modifies this`instDef
      ensures Valid() && Abs() == Machine.InstAddRange(old(Abs()), start, len, d)
    {
      if len == 0 {
        return;
      }
      if start + len > 256 {
        return;
      }
      for i := 0 to len
        invariant |instDef| == 256
        invariant forall op :: 0 <= op < 256 ==>
          instDef[op] == if start <= op < start + i then d else old(instDef[op])
      {
        instDef := instDef[start + i := d];
      }
      ghost var r := Machine.InstAddRange(old(Abs()), start, len, d);
      assert instDef == r.instDef;
    }

    /** `emcs51_core_inst_add`: copies `d` into slot `opcode`. */
    method InstAdd(opcode: uint8, d: InstDef)
      requires Valid()
      modifies this`instDef
      ensures Valid() && Abs() == Machine.InstAdd(old(Abs()), opcode, d)
    {
      instDef := instDef[opcode := d];
    }

    /** `emcs51_core_reg_add`: installs the write and read hooks at `addr`. */
    method RegAdd(addr: uint8, write: Option<HookId>, read: Option<HookId>)
      requires Valid()
      modifies this`writeHooks, this`readHooks
      ensures Valid() && Abs() == Machine.RegAdd(old(Abs()), addr, write, read)
    {
      writeHooks := writeHooks[addr := write];
      readHooks := readHooks[addr := read];
    }

    /** `emcs51_core_set_xdata_ram`: borrows `buffer` as the external RAM; the
        core and the caller share it from now on. */
    method SetXdataRam(buffer: array<uint8>)
      requires Valid() && buffer != dataRam && buffer != operands
      modifies this`xdata
      ensures Valid() && xdata == buffer
      ensures Abs() == Machine.SetXdataRam(old(Abs()), buffer[..])
    {
      xdata := buffer;
    }

    /** `emcs51_core_reset`: clears the register file only. */
    method Reset()
      requires Valid()
      modifies this`reg
      ensures Valid() && Abs() == Machine.Reset(old(Abs()))
    {
      reg := ZeroRegs;
    }

    /** `emcs51_core_read_GPR`: register `n` of the bank PSW selects; with
        `n > 7` the status is `Err` and `data` carries no value. */
    method ReadGpr(n: uint8) returns (status: int, data: uint8)
      requires Valid()
      ensures status == GprStatus(n)
      ensures n <= 7 ==> data == dataRam[Bank(reg.psw) * 8 + n]
      ensures Machine.ReadGpr(Abs(), n) == if n > 7 then Failure(Err) else Success(data)
    {
      if n > 7 {
        return Err, 0;
      }
      var bank := (reg.psw / 8) % 4;
      data := dataRam[bank * 8 + n];
      status := Ok;
    }

    /** `emcs51_core_write_GPR`: stores `data` in register `n` of the bank
        PSW selects; with `n > 7` the status is `Err` and nothing changes. */
    method WriteGpr(n: uint8, data: uint8) returns (status: int)
      requires Valid()
      modifies dataRam
      ensures Valid() && status == GprStatus(n)
      ensures Abs() == Machine.WriteGpr(old(Abs()), n, data)
    {
      if n > 7 {
        return Err;
      }
      var bank := (reg.psw / 8) % 4;
      dataRam[bank * 8 + n] := data;
      status := Ok;
    }

    /** `emcs51_core_read_DPTR`: DPH:DPL as one word; it cannot fail. */
    method ReadDptr() returns (status: int, data: uint16)
      requires Valid()
      ensures status == Ok
      ensures data == Dptr(Abs())
    {
      var dph := dataRam[Dph];
      var dpl := dataRam[Dpl];
      data := Word(dph, dpl);
      status := Ok;

    }

    /** `emcs51_core_write_DPTR`: splits `data` over DPH and DPL; it cannot fail. */
    method WriteDptr(data: uint16) returns (status: int)
      requires Valid()
      modifies dataRam
      ensures Valid() && status == Ok
      ensures Abs() == WithDptr(old(Abs()), data)
    {
      dataRam[Dph] := Hi(data);
      dataRam[Dpl] := Lo(data);
      status := Ok;
    }
  }
}
