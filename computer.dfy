/**
 * The data model of the logic simulator: operators (primitive gates or custom
 * wirings), pins, connections and components, the primitive gate library, pin
 * and component identity, and the derived attributes of a component.
 */
module Computer {

  datatype Option<T> = None | Some(value: T)

  /** Why a computation throws instead of returning. */
  datatype Fault =
    | Thrown(message: string)  // an exception raised by the simulator itself
    | OutOfFuel                // the worklist did not drain within the step bound

  datatype Result<T> = Ok(value: T) | Err(fault: Fault)

  /** The four primitive gates. */
  datatype PrimOp = INV | AND | NAND | OR

  /**
   * An operator is either a primitive gate or a custom wiring with a declared
   * number of inputs and outputs.
   */
  datatype Operator =
    | Prim(fn: PrimOp)
    | Custom(connections: seq<Connection>, inputs: nat, outputs: nat)

  /**
   * The four pin types. Signals ENTER a custom operator through its
   * "global-output" pins and LEAVE it through its "global-input" pins.
   */
  datatype PinType = GlobalInput | GlobalOutput | Input | Output

  /**
   * A pin: its type, its index, the component it belongs to (absent on global
   * pins; `None` on a component pin stands for a missing `content`), and `id`,
   * the identity of the pin object. Sets of pins compare every field, so two pin
   * objects are one set element exactly when they share an id.
   */
  datatype Pin = Pin(kind: PinType, index: nat, content: Option<Component>, id: nat)

  /** A directed wire between two pins. */
  datatype Connection = Connection(key: string, from: Pin, to: Pin)

  /**
   * A component: a named gate with a unique key, its operator and the arities
   * fixed when it was built.
   */
  datatype Component = Component(
    key: string,
    name: string,
    color: string,
    operator: Operator,
    operatorInputs: nat,
    operatorOutputs: nat,
    canBeDeleted: bool)

  predicate IsGlobal(kind: PinType) {
    kind == GlobalInput || kind == GlobalOutput
  }

  function Falses(n: nat): (r: seq<bool>)
    ensures |r| == n && forall i :: 0 <= i < n ==> !r[i]
  {
    seq(n, _ => false)
  }

  // ---------------------------------------------------------------------------
  // Primitive gates. Arguments arrive spread, so a missing argument reads as
  // `undefined`, which is falsy; extra arguments are ignored.
  // ---------------------------------------------------------------------------

  function Arg(args: seq<bool>, i: nat): bool {
    i < |args| && args[i]
  }

  /** The inverter's single result is the opposite of its first argument. */
  function Inv(args: seq<bool>): (r: seq<bool>)
    ensures |r| == 1 && r[0] != Arg(args, 0)
  {
    [!Arg(args, 0)]
  }

  /** AND's single result is true exactly when both of its two arguments are. */
  function And(args: seq<bool>): (r: seq<bool>)
    ensures |r| == 1 && (r[0] <==> forall i :: 0 <= i < 2 ==> Arg(args, i))
  {
    [Arg(args, 0) && Arg(args, 1)]
  }

  /** NAND is INV applied to the spread result of AND. */
  function Nand(args: seq<bool>): (r: seq<bool>)
    ensures r == [!(Arg(args, 0) && Arg(args, 1))]
  {
    Inv(And(args))
  }

  /** OR is NAND of the two inverted arguments (De Morgan). */
  function Or(args: seq<bool>): (r: seq<bool>)
    ensures r == [Arg(args, 0) || Arg(args, 1)]
  {
    Nand(Inv([Arg(args, 0)]) + Inv([Arg(args, 1)]))
  }

  /** The number of declared parameters of a primitive (its `length`). */
  function Arity(p: PrimOp): nat {
    match p
    case INV => 1
    case AND => 2
    case NAND => 2
    case OR => 2
  }

  /** Calls a primitive gate with the given arguments. */
  function Apply(p: PrimOp, args: seq<bool>): (r: seq<bool>)
    ensures |r| == 1
  {
    match p
    case INV => Inv(args)
    case AND => And(args)
    case NAND => Nand(args)
    case OR => Or(args)
  }

  /** On exactly their arity, the primitives compute NOT, AND, NAND and OR. */
  lemma PrimitiveTruth(a: bool, b: bool)
    ensures Apply(INV, [a]) == [!a]
    ensures Apply(AND, [a, b]) == [a && b]
    ensures Apply(NAND, [a, b]) == [!(a && b)]
    ensures Apply(OR, [a, b]) == [a || b]
  {
  }

  /**
   * A primitive reads only its first Arity arguments, and reads a missing
   * argument as false: the result on any argument list is the result on that
   * list cut or padded with false to exactly Arity entries.
   */
  lemma {:induction false} ApplyReadsOnlyArity(p: PrimOp, args: seq<bool>)
    ensures Apply(p, args) == Apply(p, Fit(args, Arity(p)))
  {
    assert forall i :: 0 <= i < Arity(p) ==> Arg(args, i) == Arg(Fit(args, Arity(p)), i);
    match p
    case INV =>
    case AND =>
    case NAND =>
    case OR =>
      assert Arg(args, 1) == Arg(Fit(args, 2), 1);
  }

  /** `args` cut or padded with false to length n. */
  function Fit(args: seq<bool>, n: nat): (r: seq<bool>)
    ensures |r| == n
    ensures forall i :: 0 <= i < n ==> r[i] == Arg(args, i)
  {
    seq(n, i requires 0 <= i < n => Arg(args, i))
  }

  // ---------------------------------------------------------------------------
  // Identity of pins and components
  // ---------------------------------------------------------------------------

  /** Two components are the same entity when their keys agree. */
  predicate IsSameComponent(a: Component, b: Component) {
    a.key == b.key
  }

  /** The key of the component a pin belongs to, if the pin is bound to one. */
  function OwnerKey(p: Pin): Option<string> {
    if IsGlobal(p.kind) || p.content.None? then None else Some(p.content.value.key)
  }

  /**
   * Pin equality by address: type, index and (for component pins) the owning
   * component's key. A component pin without a component throws.
   */
  function IsSamePin(a: Pin, b: Pin): (r: Result<bool>)
    ensures r.Err? <==>
      a.kind == b.kind && a.index == b.index && !IsGlobal(a.kind) &&
      (a.content.None? || b.content.None?)
    ensures r.Ok? ==> (r.value <==> a.kind == b.kind && a.index == b.index && OwnerKey(a) == OwnerKey(b))
  {
    if a.kind != b.kind then Ok(false)
    else if a.index != b.index then Ok(false)
    else if IsGlobal(a.kind) then Ok(true)
    else if a.content.None? || b.content.None? then Err(Thrown("Invalid pin content"))
    else Ok(IsSameComponent(a.content.value, b.content.value))
  }

  /** A pin whose address can be compared without throwing. */
  predicate Addressable(p: Pin) {
    IsGlobal(p.kind) || p.content.Some?
  }

  /** On addressable pins, IsSamePin is an equivalence relation. */
  lemma IsSamePinEquivalence(a: Pin, b: Pin, c: Pin)
    requires Addressable(a) && Addressable(b) && Addressable(c)
    ensures IsSamePin(a, a) == Ok(true)
    ensures IsSamePin(a, b).Ok? && IsSamePin(a, b) == IsSamePin(b, a)
    ensures IsSamePin(a, b) == Ok(true) && IsSamePin(b, c) == Ok(true) ==> IsSamePin(a, c) == Ok(true)
  {
  }

  /**
   * IsSamePin looks at nothing but type, index and owner key: replacing the
   * object identity of either pin, or its component by any component with the
   * same key, leaves the verdict unchanged.
   */
  lemma IsSamePinIgnoresIdentity(a: Pin, b: Pin, id: nat, copy: Component)
    requires a.content.Some? && copy.key == a.content.value.key
    ensures IsSamePin(a.(id := id, content := Some(copy)), b) == IsSamePin(a, b)
  {
  }

  // ---------------------------------------------------------------------------
  // Components
  // ---------------------------------------------------------------------------

  /**
   * Builds a component around an operator. The key is the caller's fresh
   * identifier. The arities are fixed here: a primitive's parameter count and
   * the length of its result on all-false arguments, or a custom operator's
   * declared counts.
   */
  function NewComponent(key: string, name: string, operator: Operator, color: string): (c: Component)
    ensures c.key == key && c.name == name && c.color == color && c.operator == operator
    ensures c.canBeDeleted
    ensures operator.Prim? ==>
      c.operatorInputs == Arity(operator.fn) &&
      c.operatorOutputs == |Apply(operator.fn, Falses(c.operatorInputs))| == 1
    ensures operator.Custom? ==>
      c.operatorInputs == operator.inputs && c.operatorOutputs == operator.outputs
  {
    var inputs := if operator.Prim? then Arity(operator.fn) else operator.inputs;
    var outputs := if operator.Prim? then |Apply(operator.fn, Falses(inputs))| else operator.outputs;
    Component(key, name, color, operator, inputs, outputs, true)
  }

  /** Marks a component as not deletable; nothing else about it changes. */
  function DisableDelete(c: Component): (r: Component)
    ensures !r.canBeDeleted
    ensures r.(canBeDeleted := c.canBeDeleted) == c
    ensures IsSameComponent(r, c)
  {
    c.(canBeDeleted := false)
  }

  /** The drawn height: 20 per pin row on the busier side, at least 40. */
  function Height(c: Component): (h: nat)
    ensures h >= 40 && h >= 20 * c.operatorInputs && h >= 20 * c.operatorOutputs
    ensures h == 40 || h == 20 * c.operatorInputs || h == 20 * c.operatorOutputs
  {
    var rows := if c.operatorInputs >= c.operatorOutputs then c.operatorInputs else c.operatorOutputs;
    if rows * 20 >= 40 then rows * 20 else 40
  }

  // ---------------------------------------------------------------------------
  // Nesting depth: the termination measure of evaluation
  // ---------------------------------------------------------------------------

  function Sum(s: seq<nat>): nat {
    if s == [] then 0 else s[0] + Sum(s[1..])
  }

  lemma {:induction false} SumBounds(s: seq<nat>, k: nat)
    requires k < |s|
    ensures s[k] <= Sum(s)
  {
    if k > 0 {
      SumBounds(s[1..], k - 1);
    }
  }

  /** How deeply components nest inside an operator. */
  ghost function Depth(op: Operator): nat {
    match op
    case Prim(_) => 0
    case Custom(conns, _, _) =>
      1 + Sum(seq(|conns|, k requires 0 <= k < |conns| =>
        (if conns[k].from.content.Some? then Depth(conns[k].from.content.value.operator) else 0) +
        (if conns[k].to.content.Some? then Depth(conns[k].to.content.value.operator) else 0)))
  }

  /** The depth of a wiring, whatever arities it is declared with. */
  ghost function ConnsDepth(conns: seq<Connection>): nat {
    Depth(Custom(conns, 0, 0))
  }

  /** The pin occurs as an end of one of the connections. */
  ghost predicate Occurs(conns: seq<Connection>, p: Pin) {
    exists k :: 0 <= k < |conns| && (conns[k].from == p || conns[k].to == p)
  }

  /** A component placed in a wiring is strictly shallower than the wiring. */
  lemma ComponentBelow(conns: seq<Connection>, p: Pin)
    requires Occurs(conns, p) && p.content.Some?
    ensures Depth(p.content.value.operator) < ConnsDepth(conns)
  {
    var k :| 0 <= k < |conns| && (conns[k].from == p || conns[k].to == p);
    var s := seq(|conns|, k requires 0 <= k < |conns| =>
      (if conns[k].from.content.Some? then Depth(conns[k].from.content.value.operator) else 0) +
      (if conns[k].to.content.Some? then Depth(conns[k].to.content.value.operator) else 0));
    SumBounds(s, k);
  }
}
