/**
 * Signal propagation through a custom operator's wiring, as functions: the
 * worklist run behind computeTurnedOnPins and the evaluate that reads a gate's
 * outputs from it. The methods that run the same algorithm step by step, and
 * are proved equal to these functions, are in module Simulator.
 */
module Propagation {
  import opened Computer

  /** The worklist and the two sets of resolved pins. */
  datatype State = State(queue: seq<Pin>, on: set<Pin>, off: set<Pin>)

  /**
   * What one pass over the connections does, by the type of the popped pin:
   * a source pin resolves its wires, a global-input sink asks for its drivers,
   * an evaluated chip resolves its output wires, a chip output asks for the
   * chip's drivers.
   */
  datatype Route =
    | FromSource(source: Pin, value: bool)
    | IntoSink(sink: Pin)
    | FromChip(chip: Component, status: seq<bool>)
    | IntoChip(chip: Component)

  /** The input bit for a source index; an index past the vector reads as false. */
  function Bit(inputs: seq<bool>, i: nat): bool {
    i < |inputs| && inputs[i]
  }

  /** Entry j of a chip's result; an index outside the result reads as false. */
  function StatusBit(status: seq<bool>, j: int): bool {
    0 <= j < |status| && status[j]
  }

  /** The pin is bound to a component with the chip's key. */
  predicate Owned(p: Pin, chip: Component) {
    p.content.Some? && IsSameComponent(p.content.value, chip)
  }

  /** The on-set when `value` holds, the off-set otherwise. */
  function Side(st: State, value: bool): set<Pin> {
    if value then st.on else st.off
  }

  function Resolve(st: State, p: Pin, value: bool): State {
    if value then st.(on := st.on + {p}) else st.(off := st.off + {p})
  }

  /** Resolves the wire's origin to `value`, and its end too when that is a global-input sink. */
  function ResolveWire(st: State, c: Connection, value: bool): State {
    var st1 := Resolve(st, c.from, value);
    if c.to.kind == GlobalInput then Resolve(st1, c.to, value) else st1
  }

  /** One iteration of a pass over the connections. */
  function Visit(route: Route, st: State, c: Connection): State {
    match route
    case FromSource(source, value) =>
      if c.from == source then ResolveWire(st.(queue := st.queue + [c.to]), c, value) else st
    case IntoSink(sink) =>
      if c.to == sink then st.(queue := st.queue + [c.from]) else st
    case FromChip(chip, status) =>
      if Owned(c.from, chip) then
        var st1 := ResolveWire(st, c, StatusBit(status, c.from.index - chip.operatorInputs));
        st1.(queue := st1.queue + [c.to])
      else st
    case IntoChip(chip) =>
      if Owned(c.to, chip) then st.(queue := st.queue + [c.from]) else st
  }

  /** A pin of the wiring without its last connection, or an end of that connection, is a pin of the wiring. */
  lemma PrefixOccurs(conns: seq<Connection>)
    requires conns != []
    ensures forall p :: Occurs(conns[..|conns| - 1], p) ==> Occurs(conns, p)
    ensures Occurs(conns, conns[|conns| - 1].from) && Occurs(conns, conns[|conns| - 1].to)
  {
    forall p | Occurs(conns[..|conns| - 1], p)
      ensures Occurs(conns, p)
    {
      var k :| 0 <= k < |conns| - 1 && (conns[..|conns| - 1][k].from == p || conns[..|conns| - 1][k].to == p);
      assert conns[k] == conns[..|conns| - 1][k];
    }
  }

  /** A visit turns on only the ends of the visited connection. */
  lemma VisitTurnsOnEnds(route: Route, st: State, c: Connection)
    ensures forall p :: p in Visit(route, st, c).on && p !in st.on ==> p == c.from || p == c.to
  {
  }

  /** A whole pass over the connections, in order. */
  function Sweep(conns: seq<Connection>, route: Route, st: State): (r: State)
    ensures st.on <= r.on && st.off <= r.off
    ensures |st.queue| <= |r.queue| && r.queue[..|st.queue|] == st.queue
    ensures forall i :: |st.queue| <= i < |r.queue| ==> Occurs(conns, r.queue[i])
    ensures forall p :: p in r.on && p !in st.on ==> Occurs(conns, p)
  {
    if conns == [] then st
    else
      var prev := Sweep(conns[..|conns| - 1], route, st);
      var last := conns[|conns| - 1];
      PrefixOccurs(conns);
      VisitTurnsOnEnds(route, prev, last);
      Visit(route, prev, last)
  }

  /** Every queued pin is an end of some connection. */
  ghost predicate QueueInWiring(conns: seq<Connection>, queue: seq<Pin>) {
    forall i :: 0 <= i < |queue| ==> Occurs(conns, queue[i])
  }

  /** The initial worklist: the origin of every wire that leaves a global-output pin, in order. */
  function Seed(conns: seq<Connection>): (q: seq<Pin>)
    ensures forall i :: 0 <= i < |q| ==> q[i].kind == GlobalOutput && Occurs(conns, q[i])
    ensures forall k :: 0 <= k < |conns| && conns[k].from.kind == GlobalOutput ==> conns[k].from in q
  {
    if conns == [] then []
    else
      var prev := Seed(conns[..|conns| - 1]);
      var last := conns[|conns| - 1];
      assert forall i :: 0 <= i < |prev| ==> Occurs(conns, prev[i]) by {
        forall i | 0 <= i < |prev|
          ensures Occurs(conns, prev[i])
        {
          var k :| 0 <= k < |conns| - 1 &&
            (conns[..|conns| - 1][k].from == prev[i] || conns[..|conns| - 1][k].to == prev[i]);
          assert conns[k] == conns[..|conns| - 1][k];
        }
      }
      assert forall k :: 0 <= k < |conns| - 1 ==> conns[k] == conns[..|conns| - 1][k];
      prev + if last.from.kind == GlobalOutput then [last.from] else []
  }

  /**
   * Seeding distributes over concatenation: the worklist has one entry per
   * wire leaving a global-output pin, in the order of the wiring.
   */
  lemma {:induction false} SeedSplit(a: seq<Connection>, b: seq<Connection>)
    ensures Seed(a + b) == Seed(a) + Seed(b)
    decreases |b|
  {
    if b == [] {
      assert a + b == a;
    } else {
      var init := b[..|b| - 1];
      SeedSplit(a, init);
      assert (a + b)[..|a + b| - 1] == a + init;
      assert (a + b)[|a + b| - 1] == b[|b| - 1];
    }
  }

  function Start(conns: seq<Connection>): State {
    State(Seed(conns), {}, {})
  }

  /** The connections that end at a pin of exactly this component, in order. */
  function ParameterConnections(conns: seq<Connection>, chip: Component): (r: seq<Connection>)
    ensures forall i :: 0 <= i < |r| ==> r[i] in conns && r[i].to.content == Some(chip)
    ensures forall k :: 0 <= k < |conns| && conns[k].to.content == Some(chip) ==> conns[k] in r
  {
    if conns == [] then []
    else
      var prev := ParameterConnections(conns[..|conns| - 1], chip);
      var last := conns[|conns| - 1];
      assert forall k :: 0 <= k < |conns| - 1 ==> conns[k] == conns[..|conns| - 1][k];
      assert conns == conns[..|conns| - 1] + [last];
      prev + if last.to.content == Some(chip) then [last] else []
  }

  /**
   * Exactly the connections ending at a pin of the chip are selected, each as
   * many times as it occurs in the wiring.
   */
  lemma {:induction false} ParameterConnectionsCount(conns: seq<Connection>, chip: Component)
    ensures forall c ::
      multiset(ParameterConnections(conns, chip))[c] == if c.to.content == Some(chip) then multiset(conns)[c] else 0
  {
    if conns != [] {
      var init := conns[..|conns| - 1];
      ParameterConnectionsCount(init, chip);
      assert conns == init + [conns[|conns| - 1]];
    }
  }

  /** Selection distributes over concatenation, so the selected connections keep the wiring's order. */
  lemma {:induction false} ParameterConnectionsSplit(a: seq<Connection>, b: seq<Connection>, chip: Component)
    ensures ParameterConnections(a + b, chip) == ParameterConnections(a, chip) + ParameterConnections(b, chip)
    decreases |b|
  {
    if b == [] {
      assert a + b == a;
    } else {
      var init := b[..|b| - 1];
      ParameterConnectionsSplit(a, init, chip);
      assert (a + b)[..|a + b| - 1] == a + init;
      assert (a + b)[|a + b| - 1] == b[|b| - 1];
    }
  }

  /** Inserts c after every connection whose target index is at most c's. */
  function Insert(c: Connection, sorted: seq<Connection>): (r: seq<Connection>)
    requires SortedByTarget(sorted)
    ensures SortedByTarget(r)
    ensures multiset(r) == multiset(sorted) + multiset{c}
  {
    if sorted == [] || c.to.index < sorted[0].to.index then
      ConsSorted(c, sorted);
      [c] + sorted
    else
      SortedTail(sorted);
      var tail := Insert(c, sorted[1..]);
      InsertBehind(sorted, c, tail);
      [sorted[0]] + tail
  }

  lemma SortedTail(s: seq<Connection>)
    requires SortedByTarget(s) && s != []
    ensures SortedByTarget(s[1..])
  {
    forall i, j | 0 <= i < j < |s| - 1
      ensures s[1..][i].to.index <= s[1..][j].to.index
    {
      assert s[1..][i] == s[i + 1] && s[1..][j] == s[j + 1];
    }
  }

  /** Putting the head of a sorted sequence before the insertion into its tail keeps it sorted. */
  lemma InsertBehind(sorted: seq<Connection>, c: Connection, tail: seq<Connection>)
    requires SortedByTarget(sorted) && sorted != [] && sorted[0].to.index <= c.to.index
    requires SortedByTarget(tail) && multiset(tail) == multiset(sorted[1..]) + multiset{c}
    ensures SortedByTarget([sorted[0]] + tail)
    ensures multiset([sorted[0]] + tail) == multiset(sorted) + multiset{c}
  {
    var head, rest := sorted[0], sorted[1..];
    assert sorted == [head] + rest;
    forall i | 0 <= i < |tail|
      ensures head.to.index <= tail[i].to.index
    {
      assert tail[i] in multiset(rest) + multiset{c};
      if tail[i] != c {
        assert tail[i] in rest;
        var k :| 0 <= k < |rest| && rest[k] == tail[i];
        assert sorted[k + 1] == rest[k];
      }
    }
    ConsSorted(head, tail);
    assert multiset([head] + tail) == multiset{head} + multiset(tail);
  }

  /** A head no greater than every element keeps a sorted sequence sorted. */
  lemma ConsSorted(head: Connection, s: seq<Connection>)
    requires SortedByTarget(s)
    requires forall i :: 0 <= i < |s| ==> head.to.index <= s[i].to.index
    ensures SortedByTarget([head] + s)
  {
    forall i, j | 0 <= i < j < |s| + 1
      ensures ([head] + s)[i].to.index <= ([head] + s)[j].to.index
    {
      if i > 0 {
        assert ([head] + s)[i] == s[i - 1];
      }
      assert ([head] + s)[j] == s[j - 1];
    }
  }

  predicate SortedByTarget(s: seq<Connection>) {
    forall i, j :: 0 <= i < j < |s| ==> s[i].to.index <= s[j].to.index
  }

  /** A stable sort of connections by the index of the pin they end at. */
  function SortByTarget(s: seq<Connection>): (r: seq<Connection>)
    ensures SortedByTarget(r)
    ensures multiset(r) == multiset(s)
  {
    if s == [] then []
    else
      assert s == s[..|s| - 1] + [s[|s| - 1]];
      Insert(s[|s| - 1], SortByTarget(s[..|s| - 1]))
  }

  /** The connections of s that end at a pin with index k, in order. */
  function WithTarget(s: seq<Connection>, k: nat): seq<Connection> {
    if s == [] then [] else (if s[0].to.index == k then [s[0]] else []) + WithTarget(s[1..], k)
  }

  lemma {:induction false} WithTargetConcat(a: seq<Connection>, b: seq<Connection>, k: nat)
    ensures WithTarget(a + b, k) == WithTarget(a, k) + WithTarget(b, k)
  {
    if a == [] {
      assert a + b == b;
    } else {
      assert (a + b)[0] == a[0] && (a + b)[1..] == a[1..] + b;
      WithTargetConcat(a[1..], b, k);
      var head := if a[0].to.index == k then [a[0]] else [];
      assert WithTarget(a + b, k) == head + (WithTarget(a[1..], k) + WithTarget(b, k));
      assert head + (WithTarget(a[1..], k) + WithTarget(b, k)) == (head + WithTarget(a[1..], k)) + WithTarget(b, k);
    }
  }

  lemma {:induction false} WithTargetAbove(s: seq<Connection>, k: nat)
    requires forall i :: 0 <= i < |s| ==> k < s[i].to.index
    ensures WithTarget(s, k) == []
  {
    if s != [] {
      assert forall i :: 0 <= i < |s| - 1 ==> s[1..][i] == s[i + 1];
      WithTargetAbove(s[1..], k);
    }
  }

  /** Insert puts c behind every connection with the same target index. */
  lemma {:induction false} InsertStable(c: Connection, sorted: seq<Connection>, k: nat)
    requires SortedByTarget(sorted)
    ensures WithTarget(Insert(c, sorted), k) == WithTarget(sorted, k) + (if c.to.index == k then [c] else [])
  {
    if sorted == [] || c.to.index < sorted[0].to.index {
      assert Insert(c, sorted) == [c] + sorted;
      assert ([c] + sorted)[0] == c && ([c] + sorted)[1..] == sorted;
      if c.to.index == k && sorted != [] {
        WithTargetAbove(sorted, k);
      }
    } else {
      SortedTail(sorted);
      InsertStable(c, sorted[1..], k);
      assert Insert(c, sorted) == [sorted[0]] + Insert(c, sorted[1..]);
      var tail := Insert(c, sorted[1..]);
      assert ([sorted[0]] + tail)[0] == sorted[0] && ([sorted[0]] + tail)[1..] == tail;
    }
  }

  /**
   * The sort is stable: the connections that end at pins with the same index
   * come out in the order they went in.
   */
  lemma {:induction false} SortByTargetStable(s: seq<Connection>, k: nat)
    ensures WithTarget(SortByTarget(s), k) == WithTarget(s, k)
  {
    if s != [] {
      var init, last := s[..|s| - 1], s[|s| - 1];
      var sorted := SortByTarget(init);
      assert s == init + [last];
      assert SortByTarget(s) == Insert(last, sorted);
      SortByTargetStable(init, k);
      InsertStable(last, sorted, k);
      WithTargetConcat(init, [last], k);
      assert WithTarget([last], k) == if last.to.index == k then [last] else [] by {
        assert [last][1..] == [];
      }
    }
  }

  /** The value each wire's origin carries: true, false, or unresolved. */
  function ParameterValues(params: seq<Connection>, on: set<Pin>, off: set<Pin>): (r: seq<Option<bool>>)
    ensures |r| == |params|
    ensures None !in r <==> forall i :: 0 <= i < |params| ==> params[i].from in on || params[i].from in off
    ensures None !in r ==> forall i :: 0 <= i < |params| ==> Known(r)[i] == (params[i].from in on)
  {
    var r := seq(|params|, i requires 0 <= i < |params| =>
      if params[i].from in on then Some(true) else if params[i].from in off then Some(false) else None);
    assert forall i :: 0 <= i < |params| ==> (r[i] == None <==> !(params[i].from in on || params[i].from in off));
    assert (None in r) <==> exists i :: 0 <= i < |params| && r[i] == None by {
      if None in r {
        var i :| 0 <= i < |r| && r[i] == None;
      }
    }
    r
  }

  function Known(values: seq<Option<bool>>): (r: seq<bool>)
    requires None !in values
    ensures |r| == |values| && forall i :: 0 <= i < |r| ==> values[i] == Some(r[i])
  {
    if values == [] then []
    else
      assert values[0] in values;
      assert None !in values[1..] by {
        assert forall x :: x in values[1..] ==> x in values;
      }
      [values[0].value] + Known(values[1..])
  }

  /**
   * One turn of the worklist loop: pop a pin and handle it by its type.
   * A pin already resolved is dropped. A chip input pin evaluates its chip
   * only when exactly operatorInputs wires end at the chip and all of their
   * origins are resolved; otherwise the pin is dropped without effect.
   */
  function Step(conns: seq<Connection>, inputs: seq<bool>, fuel: nat, st: State): (r: Result<State>)
    requires st.queue != [] && QueueInWiring(conns, st.queue)
    ensures r.Ok? ==> QueueInWiring(conns, r.value.queue)
    ensures r.Ok? ==> st.on <= r.value.on && st.off <= r.value.off
    ensures r.Ok? ==> forall p :: p in r.value.on && p !in st.on ==> Occurs(conns, p)
    decreases ConnsDepth(conns), 0, 0
  {
    var current := st.queue[0];
    var rest := st.(queue := st.queue[1..]);
    PopInWiring(conns, st.queue);
    if current in st.on || current in st.off then Ok(rest)
    else match current.kind
      case GlobalOutput => Ok(SweepInWiring(conns, FromSource(current, Bit(inputs, current.index)), rest))
      case GlobalInput => Ok(SweepInWiring(conns, IntoSink(current), rest))
      case Input =>
        if current.content.None? then Err(Thrown("Operator is not defined for component"))
        else
          var chip := current.content.value;
          var params := ParameterConnections(conns, chip);
          if |params| != chip.operatorInputs then Ok(rest)
          else
            var values := ParameterValues(SortByTarget(params), st.on, st.off);
            if None in values then Ok(rest)
            else
              ComponentBelow(conns, current);
              (match Eval(chip.operator, Known(values), fuel)
               case Err(f) => Err(f)
               case Ok(status) => Ok(SweepInWiring(conns, FromChip(chip, status), rest)))
      case Output =>
        if current.content.None? then Err(Thrown("Broken output component, no content defined"))
        else Ok(SweepInWiring(conns, IntoChip(current.content.value), rest))
  }

  lemma PopInWiring(conns: seq<Connection>, queue: seq<Pin>)
    requires queue != [] && QueueInWiring(conns, queue)
    ensures Occurs(conns, queue[0]) && QueueInWiring(conns, queue[1..])
  {
    assert forall i :: 0 <= i < |queue| - 1 ==> queue[1..][i] == queue[i + 1];
  }

  /** A pass, with the fact that it keeps every queued pin an end of some connection. */
  function SweepInWiring(conns: seq<Connection>, route: Route, st: State): (r: State)
    requires QueueInWiring(conns, st.queue)
    ensures r == Sweep(conns, route, st) && QueueInWiring(conns, r.queue)
  {
    var r := Sweep(conns, route, st);
    assert forall i :: 0 <= i < |st.queue| ==> r.queue[i] == st.queue[i];
    r
  }

  /** Runs the worklist for at most `budget` turns; an undrained queue after that is OutOfFuel. */
  function Run(conns: seq<Connection>, inputs: seq<bool>, fuel: nat, budget: nat, st: State): (r: Result<State>)
    requires QueueInWiring(conns, st.queue)
    ensures r.Ok? ==> r.value.queue == [] && st.on <= r.value.on && st.off <= r.value.off
    ensures r.Ok? ==> forall p :: p in r.value.on && p !in st.on ==> Occurs(conns, p)
    decreases ConnsDepth(conns), 1, budget
  {
    if st.queue == [] then Ok(st)
    else if budget == 0 then Err(OutOfFuel)
    else match Step(conns, inputs, fuel, st)
      case Err(f) => Err(f)
      case Ok(next) => Run(conns, inputs, fuel, budget - 1, next)
  }

  /** The complete run from the seeded worklist, with `fuel` turns. */
  function Propagate(conns: seq<Connection>, inputs: seq<bool>, fuel: nat): (r: Result<State>)
    ensures r.Ok? ==> r.value.queue == [] && forall p :: p in r.value.on ==> Occurs(conns, p)
    decreases ConnsDepth(conns), 2, 0
  {
    Run(conns, inputs, fuel, fuel, Start(conns))
  }

  /** computeTurnedOnPins: the pins that carry a true signal after the run. */
  function TurnedOn(conns: seq<Connection>, inputs: seq<bool>, fuel: nat): (r: Result<set<Pin>>)
    ensures r.Ok? ==> forall p :: p in r.value ==> Occurs(conns, p)
    decreases ConnsDepth(conns), 3, 0
  {
    match Propagate(conns, inputs, fuel)
    case Err(f) => Err(f)
    case Ok(st) => Ok(st.on)
  }

  /** The indices of the global-input sinks in a set of pins. */
  function SinkIndices(pins: set<Pin>): set<nat> {
    set p | p in pins && p.kind == GlobalInput :: p.index
  }

  /** An array element assignment: writing past the end extends the array, the gap reading as false. */
  function Write(out: seq<bool>, i: nat, v: bool): (r: seq<bool>)
    ensures |r| == if i < |out| then |out| else i + 1
    ensures r[i] == v
    ensures forall j :: 0 <= j < |r| && j != i ==> r[j] == (j < |out| && out[j])
  {
    if i < |out| then out[i := v] else out + Falses(i - |out|) + [v]
  }

  /** Writes, for every wire that ends at a global-input sink, whether that sink index is turned on. */
  function FillOutputs(conns: seq<Connection>, sinks: set<nat>, out: seq<bool>): (r: seq<bool>)
    ensures |r| >= |out|
    ensures forall j :: 0 <= j < |r| && r[j] ==> j in sinks || (j < |out| && out[j])
  {
    if conns == [] then out
    else
      var prev := FillOutputs(conns[..|conns| - 1], sinks, out);
      var to := conns[|conns| - 1].to;
      if to.kind == GlobalInput then Write(prev, to.index, to.index in sinks) else prev
  }

  /** evaluate: a primitive is called directly; a custom operator runs its wiring. */
  function Eval(op: Operator, inputs: seq<bool>, fuel: nat): (r: Result<seq<bool>>)
    ensures op.Prim? ==> r.Ok? && |r.value| == 1
    ensures op.Custom? && r.Ok? ==>
      |r.value| >= op.outputs && TurnedOn(op.connections, inputs, fuel).Ok? &&
      forall j :: 0 <= j < |r.value| && r.value[j] ==> j in SinkIndices(TurnedOn(op.connections, inputs, fuel).value)
    decreases Depth(op), 4, 0
  {
    match op
    case Prim(p) => Ok(Apply(p, inputs))
    case Custom(conns, _, outputs) =>
      match TurnedOn(conns, inputs, fuel)
      case Err(f) => Err(f)
      case Ok(on) => Ok(FillOutputs(conns, SinkIndices(on), Falses(outputs)))
  }
}
