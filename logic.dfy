/**
 * The stand-alone gate library: INV, AND, NAND and OR over parameters that
 * may be booleans or the numbers 0 and 1, read by truthiness. A missing
 * parameter is undefined, which is falsy.
 */
module Logic {
  import Computer

  /** A gate parameter: a boolean, or the number 0 or 1. */
  datatype Param = Bool(b: bool) | Zero | One

  function Truthy(p: Param): bool {
    match p
    case Bool(b) => b
    case Zero => false
    case One => true
  }

  /** Parameter i by truthiness; a missing one is undefined, hence false. */
  function Arg(params: seq<Param>, i: nat): bool {
    i < |params| && Truthy(params[i])
  }

  /** Parameter i passed on as a single argument (nothing when it is missing). */
  function Pass(params: seq<Param>, i: nat): seq<Param> {
    if i < |params| then [params[i]] else []
  }

  /** A gate's boolean result spread into the parameters of the next gate. */
  function Spread(bits: seq<bool>): (params: seq<Param>)
    ensures |params| == |bits| && forall i :: 0 <= i < |bits| ==> Truthy(params[i]) == bits[i]
  {
    seq(|bits|, i requires 0 <= i < |bits| => Bool(bits[i]))
  }

  /** The inverter's single result is the opposite of its first parameter's truthiness. */
  function Inv(params: seq<Param>): (r: seq<bool>)
    ensures |r| == 1 && r[0] != Arg(params, 0)
  {
    [!Arg(params, 0)]
  }

  /** AND's single result is true exactly when both of its two parameters are truthy. */
  function And(params: seq<Param>): (r: seq<bool>)
    ensures |r| == 1 && (r[0] <==> forall i :: 0 <= i < 2 ==> Arg(params, i))
  {
    [Arg(params, 0) && Arg(params, 1)]
  }

  /** NAND is INV applied to the spread result of AND. */
  function Nand(params: seq<Param>): (r: seq<bool>)
    ensures r == [!(Arg(params, 0) && Arg(params, 1))]
  {
    Inv(Spread(And(params)))
  }

  /** OR is NAND of the two separately inverted parameters. */
  function Or(params: seq<Param>): (r: seq<bool>)
    ensures r == [Arg(params, 0) || Arg(params, 1)]
  {
    Nand(Spread(Inv(Pass(params, 0))) + Spread(Inv(Pass(params, 1))))
  }

  /** The truthiness of each parameter. */
  function Truths(params: seq<Param>): (bits: seq<bool>)
    ensures |bits| == |params| && forall i :: 0 <= i < |params| ==> bits[i] == Truthy(params[i])
  {
    seq(|params|, i requires 0 <= i < |params| => Truthy(params[i]))
  }

  /**
   * The gates of this library compute what the simulator's primitive gates
   * compute on the parameters' truth values; in particular 0 acts as false and
   * 1 as true.
   */
  lemma GatesAgree(params: seq<Param>)
    ensures Inv(params) == Computer.Apply(Computer.INV, Truths(params))
    ensures And(params) == Computer.Apply(Computer.AND, Truths(params))
    ensures Nand(params) == Computer.Apply(Computer.NAND, Truths(params))
    ensures Or(params) == Computer.Apply(Computer.OR, Truths(params))
  {
    assert Arg(params, 0) == Computer.Arg(Truths(params), 0);
    assert Arg(params, 1) == Computer.Arg(Truths(params), 1);
  }

  /** On 0 and 1 the gates compute the boolean NOT, AND, NAND and OR of 0 = false, 1 = true. */
  lemma NumericParams()
    ensures Inv([Zero]) == [true] && Inv([One]) == [false]
    ensures And([One, One]) == [true] && And([One, Zero]) == [false]
    ensures Nand([One, One]) == [false] && Nand([Zero, One]) == [true]
    ensures Or([Zero, Zero]) == [false] && Or([Zero, One]) == [true]
  {
  }
}
