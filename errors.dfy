/** Status codes of the emulator (the `emcs51_err_t` enumeration) and the
    printable name the library gives each of them. */
module Emcs51 {

  const Ok: int := 0
  const Err: int := -1
  const ErrCoreNull: int := -2
  const ErrCodeOutOfRange: int := -3
  const ErrUnknownInst: int := -4
  const ErrXdataOutOfRange: int := -5

  /** The codes that have a case of their own in the name table. */
  predicate IsNamedCode(err: int) {
    ErrUnknownInst <= err <= Ok
  }

  /** The name of a status code; every code without a case of its own,
      including `ErrXdataOutOfRange`, is reported as "UNKNOWN_ERR". */
  function ErrName(err: int): (name: string)
    ensures name == "UNKNOWN_ERR" <==> !IsNamedCode(err)
    ensures err == ErrXdataOutOfRange ==> name == "UNKNOWN_ERR"
  {
    if err == Ok then "OK"
    else if err == Err then "ERR"
    else if err == ErrCoreNull then "ERR_CORE_NULL"
    else if err == ErrCodeOutOfRange then "ERR_CODE_OUT_OF_RANGE"
    else if err == ErrUnknownInst then "ERR_UNKNOWN_INST"
    else "UNKNOWN_ERR"
  }

  /** The inverse of `ErrName` on the named codes. */
  function CodeOfName(name: string): (code: NameLookup)
  {
    if name == "OK" then Named(Ok)
    else if name == "ERR" then Named(Err)
    else if name == "ERR_CORE_NULL" then Named(ErrCoreNull)
    else if name == "ERR_CODE_OUT_OF_RANGE" then Named(ErrCodeOutOfRange)
    else if name == "ERR_UNKNOWN_INST" then Named(ErrUnknownInst)
    else Unnamed
  }

  datatype NameLookup = Unnamed | Named(code: int)

  /** Reading a name back gives the code it was printed from, exactly for the
      named codes; so the five named codes have pairwise distinct names. */
  lemma {:induction false} ErrNameRoundTrip(err: int)
    ensures CodeOfName(ErrName(err)) == (if IsNamedCode(err) then Named(err) else Unnamed)
  {
    if !IsNamedCode(err) {
      assert ErrName(err) == "UNKNOWN_ERR";
      assert "UNKNOWN_ERR"[0] == 'U';
      assert "UNKNOWN_ERR" != "OK" && "UNKNOWN_ERR" != "ERR";
      assert "UNKNOWN_ERR" != "ERR_CORE_NULL" && "UNKNOWN_ERR" != "ERR_UNKNOWN_INST";
      assert "UNKNOWN_ERR" != "ERR_CODE_OUT_OF_RANGE";
    } else {
      assert "ERR" != "OK";
      assert "ERR_CORE_NULL"[..3] == "ERR" && "ERR_CORE_NULL" != "OK";
      assert "ERR_CODE_OUT_OF_RANGE" != "OK" && "ERR_CODE_OUT_OF_RANGE" != "ERR";
      assert "ERR_CODE_OUT_OF_RANGE"[5] == 'O' && "ERR_CORE_NULL"[5] == 'O';
      assert "ERR_CODE_OUT_OF_RANGE"[6] == 'D' && "ERR_CORE_NULL"[6] == 'R';
      assert "ERR_UNKNOWN_INST" != "OK" && "ERR_UNKNOWN_INST" != "ERR";
      assert "ERR_UNKNOWN_INST"[4] == 'U' && "ERR_CORE_NULL"[4] == 'C';
      assert "ERR_CODE_OUT_OF_RANGE"[4] == 'C';
    }
  }

  /** The five named codes map to pairwise distinct names. */
  lemma {:induction false} ErrNamesDistinct(e1: int, e2: int)
    requires IsNamedCode(e1) && IsNamedCode(e2) && e1 != e2
    ensures ErrName(e1) != ErrName(e2)
  {
    ErrNameRoundTrip(e1);
    ErrNameRoundTrip(e2);
  }
}
