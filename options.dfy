/** The query-parameter helpers of src/options.rs: a flag, or an optional
    small number, rendered as `&name=value`, or as nothing at all. */
module Options {
  import opened Errors
  import opened Text

  /** `&name=value`. */
  function Param(name: string, value: string): string
  {
    "&" + name + "=" + value
  }

  /** The value of a rendered parameter called `name`, if `p` is one. */
  function ParamValue(p: string, name: string): Option<string>
  {
    var head := "&" + name + "=";
    if |head| <= |p| && p[..|head|] == head then Some(p[|head|..]) else None
  }

  /** Reading a rendered parameter back gives its value. */
  lemma ParamValueOfParam(name: string, value: string)
    ensures ParamValue(Param(name, value), name) == Some(value)
  {
    var head := "&" + name + "=";
    assert Param(name, value) == head + value;
    assert (head + value)[..|head|] == head;
    assert (head + value)[|head|..] == value;
  }

  /** `bool_to_param`: a set flag is sent as `&name=1`, an unset one not at all. */
  function BoolToParam(name: string, b: bool): (p: string)
    ensures !b <==> p == ""
  {
    if b then Param(name, "1") else ""
  }

  /** `u8_to_param`: a value is sent as `&name=` and its decimal digits; no
      value is sent as nothing. */
  function U8ToParam(name: string, value: Option<u8>): (p: string)
    ensures value.None? <==> p == ""
  {
    match value
    case None => ""
    case Some(v) => Param(name, NatToString(v))
  }

  /** `u16_to_param`, the same for 16-bit values. */
  function U16ToParam(name: string, value: Option<u16>): (p: string)
    ensures value.None? <==> p == ""
  {
    match value
    case None => ""
    case Some(v) => Param(name, NatToString(v))
  }

  /** A set flag reads back as `1`. */
  lemma BoolParamReadsBack(name: string)
    ensures ParamValue(BoolToParam(name, true), name) == Some("1")
  {
    ParamValueOfParam(name, "1");
  }

  /** A sent 8-bit value reads back as its digits, which parse back to it. */
  lemma U8ParamReadsBack(name: string, v: u8)
    ensures ParamValue(U8ToParam(name, Some(v)), name) == Some(NatToString(v))
    ensures ParseU16(NatToString(v)) == Some(v)
  {
    ParamValueOfParam(name, NatToString(v));
    ParseU16OfNatToString(v);
  }

  /** A sent 16-bit value reads back as its digits, which parse back to it. */
  lemma U16ParamReadsBack(name: string, v: u16)
    ensures ParamValue(U16ToParam(name, Some(v)), name) == Some(NatToString(v))
    ensures ParseU16(NatToString(v)) == Some(v)
  {
    ParamValueOfParam(name, NatToString(v));
    ParseU16OfNatToString(v);
  }
}
