/**
 * What the propagation run guarantees: which pins a pass over the connections
 * resolves, the invariants every turn of the worklist keeps, and from them the
 * behaviour of sources, sinks and chips at the end of a run and the outputs
 * evaluate reads back.
 */
module PropagationFacts {
  import opened Computer
  import opened Propagation

  // ---------------------------------------------------------------------------
  // Well-formed wirings
  // ---------------------------------------------------------------------------

  /** A global pin is not bound to a component (the global pin type has no `content`). */
  predicate Unbound(p: Pin) {
    IsGlobal(p.kind) ==> p.content.None?
  }

  ghost predicate WellFormed(conns: seq<Connection>) {
    forall k :: 0 <= k < |conns| ==> Unbound(conns[k].from) && Unbound(conns[k].to)
  }

  /** Every wire runs from a signal origin to a signal consumer. */
  ghost predicate Directed(conns: seq<Connection>) {
    forall k :: 0 <= k < |conns| ==>
      (conns[k].from.kind == GlobalOutput || conns[k].from.kind == Output) &&
      (conns[k].to.kind == GlobalInput || conns[k].to.kind == Input)
  }

  /** The components placed in a wiring. */
  ghost function Placed(conns: seq<Connection>): set<Component> {
    (set k | 0 <= k < |conns| && conns[k].from.content.Some? :: conns[k].from.content.value) +
    (set k | 0 <= k < |conns| && conns[k].to.content.Some? :: conns[k].to.content.value)
  }

  /** Distinct placed components have distinct keys. */
  ghost predicate KeysUnique(conns: seq<Connection>) {
    forall a, b :: a in Placed(conns) && b in Placed(conns) && a.key == b.key ==> a == b
  }

  lemma PlacedContent(conns: seq<Connection>, p: Pin)
    requires Occurs(conns, p) && p.content.Some?
    ensures p.content.value in Placed(conns)
  {
    var k :| 0 <= k < |conns| && (conns[k].from == p || conns[k].to == p);
  }

  // ---------------------------------------------------------------------------
  // One pass over the connections
  // ---------------------------------------------------------------------------

  /** p is the wire's origin, or its end when that is a global-input sink. */
  predicate WireEnd(c: Connection, p: Pin) {
    p == c.from || (p == c.to && c.to.kind == GlobalInput)
  }

  /** Visiting wire c on this route resolves p to `value`. */
  predicate Sets(route: Route, c: Connection, p: Pin, value: bool) {
    match route
    case FromSource(source, v) => c.from == source && v == value && WireEnd(c, p)
    case FromChip(chip, status) =>
      Owned(c.from, chip) && StatusBit(status, c.from.index - chip.operatorInputs) == value && WireEnd(c, p)
    case IntoSink(_) => false
    case IntoChip(_) => false
  }

  /** Visiting wire c on this route queues p. */
  predicate Pushes(route: Route, c: Connection, p: Pin) {
    match route
    case FromSource(source, _) => c.from == source && p == c.to
    case IntoSink(sink) => c.to == sink && p == c.from
    case FromChip(chip, _) => Owned(c.from, chip) && p == c.to
    case IntoChip(chip) => Owned(c.to, chip) && p == c.from
  }

  /** Visiting one wire resolves exactly the pins that wire sets. */
  lemma VisitSides(route: Route, st: State, c: Connection, p: Pin, value: bool)
    ensures p in Side(Visit(route, st, c), value) <==> p in Side(st, value) || Sets(route, c, p, value)
  {
  }

  /** Visiting one wire only appends, and what it appends that wire queues. */
  lemma VisitPushes(route: Route, st: State, c: Connection)
    ensures var r := Visit(route, st, c);
      |st.queue| <= |r.queue| && r.queue[..|st.queue|] == st.queue &&
      forall i :: |st.queue| <= i < |r.queue| ==> Pushes(route, c, r.queue[i])
  {
  }

  /** A pass resolves exactly the pins some visited wire resolves. */
  lemma {:induction false} SweepSides(conns: seq<Connection>, route: Route, st: State, p: Pin, value: bool)
    ensures p in Side(Sweep(conns, route, st), value) <==>
      p in Side(st, value) || exists k :: 0 <= k < |conns| && Sets(route, conns[k], p, value)
  {
    if conns != [] {
      var init := conns[..|conns| - 1];
      var last := conns[|conns| - 1];
      SweepSides(init, route, st, p, value);
      VisitSides(route, Sweep(init, route, st), last, p, value);
      assert forall k :: 0 <= k < |init| ==> init[k] == conns[k];
      if exists k :: 0 <= k < |conns| && Sets(route, conns[k], p, value) {
        var k :| 0 <= k < |conns| && Sets(route, conns[k], p, value);
        if k < |init| {
          assert Sets(route, init[k], p, value);
        }
      }
    }
  }

  /** Everything a pass queues is queued by some visited wire. */
  lemma {:induction false} SweepPushes(conns: seq<Connection>, route: Route, st: State, i: nat)
    requires |st.queue| <= i < |Sweep(conns, route, st).queue|
    ensures exists k :: 0 <= k < |conns| && Pushes(route, conns[k], Sweep(conns, route, st).queue[i])
  {
    var init := conns[..|conns| - 1];
    var last := conns[|conns| - 1];
    var prev := Sweep(init, route, st);
    var r := Sweep(conns, route, st);
    assert r == Visit(route, prev, last);
    VisitPushes(route, prev, last);
    if i < |prev.queue| {
      SweepPushes(init, route, st, i);
      var k :| 0 <= k < |init| && Pushes(route, init[k], prev.queue[i]);
      assert init[k] == conns[k];
      assert r.queue[i] == prev.queue[i];
    } else {
      assert Pushes(route, last, r.queue[i]);
    }
  }

  // ---------------------------------------------------------------------------
  // The invariants of a run
  // ---------------------------------------------------------------------------

  /** A resolved source carries its input bit. */
  ghost predicate SourcesSound(inputs: seq<bool>, st: State) {
    (forall p :: p in st.on && p.kind == GlobalOutput ==> Bit(inputs, p.index)) &&
    (forall p :: p in st.off && p.kind == GlobalOutput ==> !Bit(inputs, p.index))
  }

  /** Every source is still queued or already resolved. */
  ghost predicate SourcesPending(conns: seq<Connection>, st: State) {
    forall k :: 0 <= k < |conns| && conns[k].from.kind == GlobalOutput ==>
      conns[k].from in st.queue || conns[k].from in st.on || conns[k].from in st.off
  }

  /** A resolved global-input sink is the end of a wire whose origin is resolved the same way. */
  ghost predicate SinksDriven(conns: seq<Connection>, st: State) {
    (forall p :: p in st.on && p.kind == GlobalInput ==>
      exists k :: 0 <= k < |conns| && conns[k].to == p && conns[k].from in st.on) &&
    (forall p :: p in st.off && p.kind == GlobalInput ==>
      exists k :: 0 <= k < |conns| && conns[k].to == p && conns[k].from in st.off)
  }

  /** A resolved source has resolved the sinks wired straight to it the same way. */
  ghost predicate DirectSinksFollow(conns: seq<Connection>, st: State) {
    forall k :: 0 <= k < |conns| && conns[k].from.kind == GlobalOutput && conns[k].to.kind == GlobalInput ==>
      (conns[k].from in st.on ==> conns[k].to in st.on) &&
      (conns[k].from in st.off ==> conns[k].to in st.off)
  }

  ghost predicate Sound(conns: seq<Connection>, inputs: seq<bool>, st: State) {
    SourcesSound(inputs, st) && SourcesPending(conns, st) && SinksDriven(conns, st) && DirectSinksFollow(conns, st)
  }

  /** The routes a turn can take for the popped pin. */
  predicate Allowed(inputs: seq<bool>, route: Route) {
    match route
    case FromSource(source, value) => source.kind == GlobalOutput && value == Bit(inputs, source.index)
    case _ => true
  }

  /** A pass keeps the set invariants. */
  lemma SweepKeepsSets(conns: seq<Connection>, inputs: seq<bool>, route: Route, st: State)
    requires WellFormed(conns) && Allowed(inputs, route)
    requires SourcesSound(inputs, st) && SinksDriven(conns, st) && DirectSinksFollow(conns, st)
    ensures var r := Sweep(conns, route, st);
      SourcesSound(inputs, r) && SinksDriven(conns, r) && DirectSinksFollow(conns, r)
  {
    SweepKeepsSourcesSound(conns, inputs, route, st);
    SweepKeepsSinksDriven(conns, inputs, route, st);
    SweepKeepsDirectSinks(conns, route, st);
  }

  /** A pass resolves a source only to its input bit. */
  lemma SweepKeepsSourcesSound(conns: seq<Connection>, inputs: seq<bool>, route: Route, st: State)
    requires WellFormed(conns) && Allowed(inputs, route) && SourcesSound(inputs, st)
    ensures SourcesSound(inputs, Sweep(conns, route, st))
  {
    var r := Sweep(conns, route, st);
    forall p, value | p in Side(r, value) && p.kind == GlobalOutput
      ensures value == Bit(inputs, p.index)
    {
      SweepSides(conns, route, st, p, value);
      if p !in Side(st, value) {
        var k :| 0 <= k < |conns| && Sets(route, conns[k], p, value);
      }
    }
    forall p | p in r.on && p.kind == GlobalOutput ensures Bit(inputs, p.index) {
      assert p in Side(r, true);
    }
    forall p | p in r.off && p.kind == GlobalOutput ensures !Bit(inputs, p.index) {
      assert p in Side(r, false);
    }
  }

  /** A pass resolves a sink only together with the origin of a wire into it. */
  lemma SweepKeepsSinksDriven(conns: seq<Connection>, inputs: seq<bool>, route: Route, st: State)
    requires WellFormed(conns) && Allowed(inputs, route) && SinksDriven(conns, st)
    ensures SinksDriven(conns, Sweep(conns, route, st))
  {
    var r := Sweep(conns, route, st);
    forall p, value | p in Side(r, value) && p.kind == GlobalInput
      ensures exists k :: 0 <= k < |conns| && conns[k].to == p && conns[k].from in Side(r, value)
    {
      SweepSides(conns, route, st, p, value);
      if p in Side(st, value) {
        var k :| 0 <= k < |conns| && conns[k].to == p && conns[k].from in Side(st, value);
      } else {
        var k :| 0 <= k < |conns| && Sets(route, conns[k], p, value);
        assert Sets(route, conns[k], conns[k].from, value);
        SweepSides(conns, route, st, conns[k].from, value);
      }
    }
    forall p | p in r.on && p.kind == GlobalInput
      ensures exists k :: 0 <= k < |conns| && conns[k].to == p && conns[k].from in r.on
    {
      assert p in Side(r, true);
    }
    forall p | p in r.off && p.kind == GlobalInput
      ensures exists k :: 0 <= k < |conns| && conns[k].to == p && conns[k].from in r.off
    {
      assert p in Side(r, false);
    }
  }

  /** A pass that resolves a source resolves the sinks wired straight to it the same way. */
  lemma SweepKeepsDirectSinks(conns: seq<Connection>, route: Route, st: State)
    requires WellFormed(conns) && DirectSinksFollow(conns, st)
    ensures DirectSinksFollow(conns, Sweep(conns, route, st))
  {
    var r := Sweep(conns, route, st);
    forall k, value | 0 <= k < |conns| && conns[k].from.kind == GlobalOutput && conns[k].to.kind == GlobalInput &&
      conns[k].from in Side(r, value)
      ensures conns[k].to in Side(r, value)
    {
      SweepSides(conns, route, st, conns[k].from, value);
      if conns[k].from in Side(st, value) {
        assert conns[k].to in Side(st, value);
      } else {
        var j :| 0 <= j < |conns| && Sets(route, conns[j], conns[k].from, value);
        assert Sets(route, conns[k], conns[k].to, value);
      }
      SweepSides(conns, route, st, conns[k].to, value);
    }
    forall k | 0 <= k < |conns| && conns[k].from.kind == GlobalOutput && conns[k].to.kind == GlobalInput
      ensures (conns[k].from in r.on ==> conns[k].to in r.on) && (conns[k].from in r.off ==> conns[k].to in r.off)
    {
      if conns[k].from in r.on {
        assert conns[k].from in Side(r, true);
      }
      if conns[k].from in r.off {
        assert conns[k].from in Side(r, false);
      }
    }
  }

  /** How a turn that does not throw comes about: a drop of the popped pin, or one pass. */
  lemma StepShape(conns: seq<Connection>, inputs: seq<bool>, fuel: nat, st: State)
    requires st.queue != [] && QueueInWiring(conns, st.queue)
    requires Step(conns, inputs, fuel, st).Ok?
    ensures var current := st.queue[0];
      var rest := st.(queue := st.queue[1..]);
      var next := Step(conns, inputs, fuel, st).value;
      (current in st.on || current in st.off ==> next == rest) &&
      (current !in st.on && current !in st.off && current.kind == GlobalOutput ==>
        next == Sweep(conns, FromSource(current, Bit(inputs, current.index)), rest))
    ensures var current := st.queue[0];
      var rest := st.(queue := st.queue[1..]);
      var next := Step(conns, inputs, fuel, st).value;
      next == rest ||
      (current !in st.on && current !in st.off &&
       exists route :: Allowed(inputs, route) && next == Sweep(conns, route, rest) &&
         (current.kind == GlobalOutput ==> route == FromSource(current, Bit(inputs, current.index))) &&
         (current.kind == Input ==> route.FromChip? && Some(route.chip) == current.content) &&
         (current.kind == GlobalInput ==> route == IntoSink(current)) &&
         (current.kind == Output ==> route.IntoChip? && Some(route.chip) == current.content))
  {
    var current := st.queue[0];
    var rest := st.(queue := st.queue[1..]);
    if current !in st.on && current !in st.off {
      match current.kind
      case GlobalOutput =>
        assert Allowed(inputs, FromSource(current, Bit(inputs, current.index)));
      case GlobalInput =>
        assert Allowed(inputs, IntoSink(current));
      case Input =>
        var chip := current.content.value;
        var params := ParameterConnections(conns, chip);
        if |params| == chip.operatorInputs {
          var values := ParameterValues(SortByTarget(params), st.on, st.off);
          if None !in values {
            var status := Eval(chip.operator, Known(values), fuel).value;
            assert Allowed(inputs, FromChip(chip, status));
          }
        }
      case Output =>
        assert Allowed(inputs, IntoChip(current.content.value));
    }
  }

  /** A turn that does not throw keeps the rest of the queue and every resolved pin. */
  lemma StepExtends(conns: seq<Connection>, inputs: seq<bool>, fuel: nat, st: State)
    requires st.queue != [] && QueueInWiring(conns, st.queue)
    requires Step(conns, inputs, fuel, st).Ok?
    ensures var rest := st.(queue := st.queue[1..]);
      var next := Step(conns, inputs, fuel, st).value;
      rest.on <= next.on && rest.off <= next.off &&
      |rest.queue| <= |next.queue| && next.queue[..|rest.queue|] == rest.queue
  {
    StepShape(conns, inputs, fuel, st);
  }

  /** A turn on an unresolved source resolves that source's wires to its input bit. */
  lemma StepOnSource(conns: seq<Connection>, inputs: seq<bool>, fuel: nat, st: State)
    requires st.queue != [] && QueueInWiring(conns, st.queue)
    requires st.queue[0].kind == GlobalOutput && st.queue[0] !in st.on && st.queue[0] !in st.off
    ensures Step(conns, inputs, fuel, st) ==
      Ok(Sweep(conns, FromSource(st.queue[0], Bit(inputs, st.queue[0].index)), st.(queue := st.queue[1..])))
  {
  }

  /** Every turn of the worklist keeps the invariants. */
  lemma StepKeepsSound(conns: seq<Connection>, inputs: seq<bool>, fuel: nat, st: State)
    requires WellFormed(conns) && st.queue != [] && QueueInWiring(conns, st.queue) && Sound(conns, inputs, st)
    requires Step(conns, inputs, fuel, st).Ok?
    ensures Sound(conns, inputs, Step(conns, inputs, fuel, st).value)
  {
    StepKeepsSets(conns, inputs, fuel, st);
    StepKeepsPending(conns, inputs, fuel, st);
  }

  /** A turn keeps the invariants on the resolved sets. */
  lemma StepKeepsSets(conns: seq<Connection>, inputs: seq<bool>, fuel: nat, st: State)
    requires WellFormed(conns) && st.queue != [] && QueueInWiring(conns, st.queue)
    requires SourcesSound(inputs, st) && SinksDriven(conns, st) && DirectSinksFollow(conns, st)
    requires Step(conns, inputs, fuel, st).Ok?
    ensures var next := Step(conns, inputs, fuel, st).value;
      SourcesSound(inputs, next) && SinksDriven(conns, next) && DirectSinksFollow(conns, next)
  {
    var current := st.queue[0];
    var rest := st.(queue := st.queue[1..]);
    var next := Step(conns, inputs, fuel, st).value;
    StepShape(conns, inputs, fuel, st);
    if next != rest {
      var route :| Allowed(inputs, route) && next == Sweep(conns, route, rest);
      SweepKeepsSets(conns, inputs, route, rest);
    }
  }

  /** A turn leaves every source queued or resolved. */
  lemma StepKeepsPending(conns: seq<Connection>, inputs: seq<bool>, fuel: nat, st: State)
    requires st.queue != [] && QueueInWiring(conns, st.queue) && SourcesPending(conns, st)
    requires Step(conns, inputs, fuel, st).Ok?
    ensures SourcesPending(conns, Step(conns, inputs, fuel, st).value)
  {
    StepShape(conns, inputs, fuel, st);
    StepExtends(conns, inputs, fuel, st);
    PendingAfterTurn(conns, inputs, st, Step(conns, inputs, fuel, st).value);
  }

  /**
   * A successor state that keeps the rest of the queue and the resolved pins,
   * and resolves the popped pin's wires when it is an unresolved source,
   * leaves every source queued or resolved.
   */
  lemma PendingAfterTurn(conns: seq<Connection>, inputs: seq<bool>, st: State, next: State)
    requires st.queue != [] && SourcesPending(conns, st)
    requires var rest := st.(queue := st.queue[1..]);
      rest.on <= next.on && rest.off <= next.off &&
      |rest.queue| <= |next.queue| && next.queue[..|rest.queue|] == rest.queue
    requires var current := st.queue[0];
      current !in st.on && current !in st.off && current.kind == GlobalOutput ==>
        next == Sweep(conns, FromSource(current, Bit(inputs, current.index)), st.(queue := st.queue[1..]))
    ensures SourcesPending(conns, next)
  {
    var current := st.queue[0];
    var rest := st.(queue := st.queue[1..]);
    forall k | 0 <= k < |conns| && conns[k].from.kind == GlobalOutput
      ensures conns[k].from in next.queue || conns[k].from in next.on || conns[k].from in next.off
    {
      var p := conns[k].from;
      if p !in st.on && p !in st.off {
        var i :| 0 <= i < |st.queue| && st.queue[i] == p;
        if i > 0 {
          assert rest.queue[i - 1] == p;
          assert next.queue[..|rest.queue|][i - 1] == p;
        } else {
          var b := Bit(inputs, current.index);
          var route := FromSource(current, b);
          assert Sets(route, conns[k], p, b);
          SweepSides(conns, route, rest, p, b);
        }
      }
    }
  }

  /** A run that does not throw drains the queue and keeps the invariants. */
  lemma {:induction false} RunKeepsSound(conns: seq<Connection>, inputs: seq<bool>, fuel: nat, budget: nat, st: State)
    requires WellFormed(conns) && QueueInWiring(conns, st.queue) && Sound(conns, inputs, st)
    requires Run(conns, inputs, fuel, budget, st).Ok?
    ensures Sound(conns, inputs, Run(conns, inputs, fuel, budget, st).value)
    ensures Run(conns, inputs, fuel, budget, st).value.queue == []
    decreases budget
  {
    if st.queue != [] {
      StepKeepsSound(conns, inputs, fuel, st);
      RunKeepsSound(conns, inputs, fuel, budget - 1, Step(conns, inputs, fuel, st).value);
    }
  }

  /** The invariants hold at the end of every complete run. */
  lemma PropagateSound(conns: seq<Connection>, inputs: seq<bool>, fuel: nat)
    requires WellFormed(conns) && Propagate(conns, inputs, fuel).Ok?
    ensures Sound(conns, inputs, Propagate(conns, inputs, fuel).value)
    ensures Propagate(conns, inputs, fuel).value.queue == []
  {
    RunKeepsSound(conns, inputs, fuel, fuel, Start(conns));
  }

  // ---------------------------------------------------------------------------
  // End-of-run theorems
  // ---------------------------------------------------------------------------

  /**
   * After a run, every source pin is on exactly when its input bit is set and
   * off exactly when it is clear, and a global-input sink wired straight to it
   * carries the same value.
   */
  lemma SourcesFollowInputs(conns: seq<Connection>, inputs: seq<bool>, fuel: nat, k: nat)
    requires WellFormed(conns) && Propagate(conns, inputs, fuel).Ok?
    requires k < |conns| && conns[k].from.kind == GlobalOutput
    ensures var st := Propagate(conns, inputs, fuel).value;
      var bit := Bit(inputs, conns[k].from.index);
      (conns[k].from in st.on <==> bit) && (conns[k].from in st.off <==> !bit) &&
      (conns[k].to.kind == GlobalInput ==> (bit ==> conns[k].to in st.on) && (!bit ==> conns[k].to in st.off))
  {
    PropagateSound(conns, inputs, fuel);
  }

  /** After a run, a global-input sink is on only when some wire into it starts at a pin that is on. */
  lemma SinksFollowDrivers(conns: seq<Connection>, inputs: seq<bool>, fuel: nat, p: Pin)
    requires WellFormed(conns) && TurnedOn(conns, inputs, fuel).Ok?
    requires p in TurnedOn(conns, inputs, fuel).value && p.kind == GlobalInput
    ensures exists k :: 0 <= k < |conns| && conns[k].to == p && conns[k].from in TurnedOn(conns, inputs, fuel).value
  {
    PropagateSound(conns, inputs, fuel);
  }

  /** The sinks a fill writes, and what it leaves alone. */
  lemma {:induction false} FillOutputsAt(conns: seq<Connection>, sinks: set<nat>, out: seq<bool>, j: nat)
    requires forall k :: 0 <= k < |conns| && conns[k].to.kind == GlobalInput ==> conns[k].to.index < |out|
    ensures |FillOutputs(conns, sinks, out)| == |out|
    ensures j < |out| ==>
      FillOutputs(conns, sinks, out)[j] ==
        if exists k :: 0 <= k < |conns| && conns[k].to.kind == GlobalInput && conns[k].to.index == j
        then j in sinks else out[j]
  {
    if conns != [] {
      var init := conns[..|conns| - 1];
      assert forall k :: 0 <= k < |init| ==> init[k] == conns[k];
      FillOutputsAt(init, sinks, out, j);
      if j < |out| && exists k :: 0 <= k < |conns| && conns[k].to.kind == GlobalInput && conns[k].to.index == j {
        var k :| 0 <= k < |conns| && conns[k].to.kind == GlobalInput && conns[k].to.index == j;
        if k < |init| {
          assert init[k].to.kind == GlobalInput && init[k].to.index == j;
        }
      }
    }
  }

  /**
   * evaluate on a custom operator whose sinks all lie below its output count
   * returns exactly that many values, entry j being whether some turned-on
   * global-input sink has index j; entries no wire reaches are false.
   */
  lemma EvalReadsTurnedOnSinks(conns: seq<Connection>, ins: nat, outs: nat, inputs: seq<bool>, fuel: nat)
    requires WellFormed(conns)
    requires forall k :: 0 <= k < |conns| && conns[k].to.kind == GlobalInput ==> conns[k].to.index < outs
    requires Eval(Custom(conns, ins, outs), inputs, fuel).Ok?
    ensures TurnedOn(conns, inputs, fuel).Ok?
    ensures var out := Eval(Custom(conns, ins, outs), inputs, fuel).value;
      var on := TurnedOn(conns, inputs, fuel).value;
      |out| == outs &&
      forall j :: 0 <= j < outs ==> (out[j] <==> exists p :: p in on && p.kind == GlobalInput && p.index == j)
  {
    var on := TurnedOn(conns, inputs, fuel).value;
    var out := Eval(Custom(conns, ins, outs), inputs, fuel).value;
    PropagateSound(conns, inputs, fuel);
    FillOutputsAt(conns, SinkIndices(on), Falses(outs), 0);
    forall j | 0 <= j < outs
      ensures out[j] <==> exists p :: p in on && p.kind == GlobalInput && p.index == j
    {
      FillOutputsAt(conns, SinkIndices(on), Falses(outs), j);
      if exists p :: p in on && p.kind == GlobalInput && p.index == j {
        var p :| p in on && p.kind == GlobalInput && p.index == j;
        var k :| 0 <= k < |conns| && conns[k].to == p && conns[k].from in on;
        assert conns[k].to.kind == GlobalInput && conns[k].to.index == j;
        assert j in SinkIndices(on);
      }
    }
  }

  /**
   * A custom operator built only of direct wires from global-output sources to
   * global-input sinks: output j is set exactly when some wire into sink j
   * starts at a source whose input bit is set.
   */
  lemma DirectWiringOutputs(conns: seq<Connection>, ins: nat, outs: nat, inputs: seq<bool>, fuel: nat, j: nat)
    requires WellFormed(conns)
    requires forall k :: 0 <= k < |conns| ==>
      conns[k].from.kind == GlobalOutput && conns[k].to.kind == GlobalInput && conns[k].to.index < outs
    requires Eval(Custom(conns, ins, outs), inputs, fuel).Ok? && j < outs
    ensures var out := Eval(Custom(conns, ins, outs), inputs, fuel).value;
      |out| == outs &&
      (out[j] <==> exists k :: 0 <= k < |conns| && conns[k].to.index == j && Bit(inputs, conns[k].from.index))
  {
    EvalReadsTurnedOnSinks(conns, ins, outs, inputs, fuel);
    PropagateSound(conns, inputs, fuel);
    var st := Propagate(conns, inputs, fuel).value;
    if exists p :: p in st.on && p.kind == GlobalInput && p.index == j {
      var p :| p in st.on && p.kind == GlobalInput && p.index == j;
      var k :| 0 <= k < |conns| && conns[k].to == p && conns[k].from in st.on;
      assert conns[k].to.index == j && Bit(inputs, conns[k].from.index);
    }
    if exists k :: 0 <= k < |conns| && conns[k].to.index == j && Bit(inputs, conns[k].from.index) {
      var k :| 0 <= k < |conns| && conns[k].to.index == j && Bit(inputs, conns[k].from.index);
      SourcesFollowInputs(conns, inputs, fuel, k);
      assert conns[k].to in st.on;
    }
  }

  // ---------------------------------------------------------------------------
  // Chips
  // ---------------------------------------------------------------------------

  /**
   * A popped chip input pin that is not resolved: with no component the turn
   * throws; with too few or too many wires into the chip, or an unresolved
   * wire origin, the pin is dropped and nothing else changes; otherwise the
   * chip is evaluated on its wire values in pin-index order and its output
   * wires are resolved.
   */
  lemma StepOnChipInput(conns: seq<Connection>, inputs: seq<bool>, fuel: nat, st: State)
    requires st.queue != [] && QueueInWiring(conns, st.queue)
    requires st.queue[0].kind == Input && st.queue[0] !in st.on && st.queue[0] !in st.off
    ensures st.queue[0].content.None? ==>
      Step(conns, inputs, fuel, st) == Err(Thrown("Operator is not defined for component"))
    ensures st.queue[0].content.Some? ==>
      var chip := st.queue[0].content.value;
      var params := ParameterConnections(conns, chip);
      var rest := st.(queue := st.queue[1..]);
      if |params| != chip.operatorInputs then Step(conns, inputs, fuel, st) == Ok(rest)
      else
        var values := ParameterValues(SortByTarget(params), st.on, st.off);
        if None in values then Step(conns, inputs, fuel, st) == Ok(rest)
        else
          match Eval(chip.operator, Known(values), fuel)
          case Err(f) => Step(conns, inputs, fuel, st) == Err(f)
          case Ok(status) => Step(conns, inputs, fuel, st) == Ok(Sweep(conns, FromChip(chip, status), rest))
  {
  }

  /**
   * When a chip is evaluated, each of its output pins j that was unresolved is
   * turned on exactly when entry j - operatorInputs of the chip's result is
   * set, and off otherwise; a global-input sink wired to it takes the same value.
   */
  lemma ChipOutputsFollowStatus(conns: seq<Connection>, chip: Component, status: seq<bool>, st: State, k: nat)
    requires WellFormed(conns)
    requires k < |conns| && Owned(conns[k].from, chip)
    requires conns[k].from !in st.on && conns[k].from !in st.off
    ensures var next := Sweep(conns, FromChip(chip, status), st);
      var bit := StatusBit(status, conns[k].from.index - chip.operatorInputs);
      (conns[k].from in next.on <==> bit) && (conns[k].from in next.off <==> !bit) &&
      (conns[k].to.kind == GlobalInput ==> conns[k].to in Side(next, bit))
  {
    var route := FromChip(chip, status);
    var p := conns[k].from;
    var bit := StatusBit(status, p.index - chip.operatorInputs);
    assert Sets(route, conns[k], p, bit);
    SweepSides(conns, route, st, p, bit);
    SweepSides(conns, route, st, p, !bit);
    if conns[k].to.kind == GlobalInput {
      assert Sets(route, conns[k], conns[k].to, bit);
      SweepSides(conns, route, st, conns[k].to, bit);
    }
  }

  /** No pin of the chip is resolved. */
  ghost predicate Unresolved(chip: Component, st: State) {
    forall p :: (p in st.on || p in st.off) ==> !Owned(p, chip)
  }

  /** A pass that does not evaluate the chip resolves none of its pins. */
  lemma SweepKeepsUnresolved(conns: seq<Connection>, route: Route, st: State, chip: Component)
    requires WellFormed(conns) && Unresolved(chip, st)
    requires route.FromSource? ==> IsGlobal(route.source.kind)
    requires route.FromChip? ==> route.chip.key != chip.key
    ensures Unresolved(chip, Sweep(conns, route, st))
  {
    var r := Sweep(conns, route, st);
    forall p, value | p in Side(r, value)
      ensures !Owned(p, chip)
    {
      SweepSides(conns, route, st, p, value);
      if p !in Side(st, value) {
        var k :| 0 <= k < |conns| && Sets(route, conns[k], p, value);
      }
    }
    forall p | p in r.on || p in r.off
      ensures !Owned(p, chip)
    {
      assert p in Side(r, true) || p in Side(r, false);
    }
  }

  lemma StepKeepsUnresolved(conns: seq<Connection>, inputs: seq<bool>, fuel: nat, st: State, chip: Component)
    requires WellFormed(conns) && KeysUnique(conns) && chip in Placed(conns)
    requires |ParameterConnections(conns, chip)| != chip.operatorInputs
    requires st.queue != [] && QueueInWiring(conns, st.queue) && Unresolved(chip, st)
    requires Step(conns, inputs, fuel, st).Ok?
    ensures Unresolved(chip, Step(conns, inputs, fuel, st).value)
  {
    var current := st.queue[0];
    var rest := st.(queue := st.queue[1..]);
    var next := Step(conns, inputs, fuel, st).value;
    StepShape(conns, inputs, fuel, st);
    if next != rest {
      var route :| Allowed(inputs, route) && next == Sweep(conns, route, rest) &&
        (current.kind == Input ==> route.FromChip? && Some(route.chip) == current.content) &&
        (current.kind == GlobalOutput ==> route.FromSource?) &&
        (current.kind == GlobalInput ==> route.IntoSink?) &&
        (current.kind == Output ==> route.IntoChip?);
      if route.FromChip? && route.chip.key == chip.key {
        PlacedContent(conns, current);
        StepOnChipInput(conns, inputs, fuel, st);
        assert false;
      }
      SweepKeepsUnresolved(conns, route, rest, chip);
    }
  }

  lemma {:induction false} RunKeepsUnresolved(conns: seq<Connection>, inputs: seq<bool>, fuel: nat, budget: nat,
                                              st: State, chip: Component)
    requires WellFormed(conns) && KeysUnique(conns) && chip in Placed(conns)
    requires |ParameterConnections(conns, chip)| != chip.operatorInputs
    requires QueueInWiring(conns, st.queue) && Unresolved(chip, st)
    requires Run(conns, inputs, fuel, budget, st).Ok?
    ensures Unresolved(chip, Run(conns, inputs, fuel, budget, st).value)
    decreases budget
  {
    if st.queue != [] {
      StepKeepsUnresolved(conns, inputs, fuel, st, chip);
      RunKeepsUnresolved(conns, inputs, fuel, budget - 1, Step(conns, inputs, fuel, st).value, chip);
    }
  }

  /**
   * A chip whose number of incoming wires differs from its operatorInputs is
   * never evaluated: after the run none of its pins is on or off.
   */
  lemma IncompleteChipStaysUnresolved(conns: seq<Connection>, inputs: seq<bool>, fuel: nat, chip: Component)
    requires WellFormed(conns) && KeysUnique(conns) && chip in Placed(conns)
    requires |ParameterConnections(conns, chip)| != chip.operatorInputs
    requires Propagate(conns, inputs, fuel).Ok?
    ensures var st := Propagate(conns, inputs, fuel).value;
      forall p :: p in st.on || p in st.off ==> !Owned(p, chip)
  {
    RunKeepsUnresolved(conns, inputs, fuel, fuel, Start(conns), chip);
  }

  // ---------------------------------------------------------------------------
  // The sink and chip-output branches
  // ---------------------------------------------------------------------------

  /** Every queued pin is a source, a chip input, or a sink that is already resolved. */
  ghost predicate QueueShape(st: State) {
    forall i :: 0 <= i < |st.queue| ==>
      st.queue[i].kind == GlobalOutput || st.queue[i].kind == Input ||
      (st.queue[i].kind == GlobalInput && (st.queue[i] in st.on || st.queue[i] in st.off))
  }

  lemma StartShape(conns: seq<Connection>)
    ensures QueueShape(Start(conns))
  {
  }

  /** A pass leaving a source or an evaluated chip keeps the queue's shape. */
  lemma SweepKeepsShape(conns: seq<Connection>, route: Route, st: State)
    requires Directed(conns) && QueueShape(st) && (route.FromSource? || route.FromChip?)
    ensures QueueShape(Sweep(conns, route, st))
  {
    var r := Sweep(conns, route, st);
    forall i | 0 <= i < |r.queue|
      ensures r.queue[i].kind == GlobalOutput || r.queue[i].kind == Input ||
        (r.queue[i].kind == GlobalInput && (r.queue[i] in r.on || r.queue[i] in r.off))
    {
      var q := r.queue[i];
      if i < |st.queue| {
        assert q == st.queue[i];
      } else {
        SweepPushes(conns, route, st, i);
        var k :| 0 <= k < |conns| && Pushes(route, conns[k], q);
        if q.kind == GlobalInput {
          var value := if route.FromSource? then route.value
                       else StatusBit(route.status, conns[k].from.index - route.chip.operatorInputs);
          assert Sets(route, conns[k], q, value);
          SweepSides(conns, route, st, q, value);
        }
      }
    }
  }

  /**
   * On a directed wiring the queue keeps its shape, so a popped pin never takes
   * the global-input branch (it is always already resolved and dropped) nor the
   * chip-output branch.
   */
  lemma StepKeepsShape(conns: seq<Connection>, inputs: seq<bool>, fuel: nat, st: State)
    requires Directed(conns) && st.queue != [] && QueueInWiring(conns, st.queue) && QueueShape(st)
    ensures var current := st.queue[0];
      (current.kind == GlobalInput ==> current in st.on || current in st.off) && current.kind != Output
    ensures Step(conns, inputs, fuel, st).Ok? ==> QueueShape(Step(conns, inputs, fuel, st).value)
  {
    if Step(conns, inputs, fuel, st).Ok? {
      var current := st.queue[0];
      var rest := st.(queue := st.queue[1..]);
      var next := Step(conns, inputs, fuel, st).value;
      StepShape(conns, inputs, fuel, st);
      assert QueueShape(rest) by {
        assert forall i :: 0 <= i < |rest.queue| ==> rest.queue[i] == st.queue[i + 1];
      }
      if next != rest {
        var route :| Allowed(inputs, route) && next == Sweep(conns, route, rest) &&
          (current.kind == GlobalOutput ==> route.FromSource?) &&
          (current.kind == Input ==> route.FromChip?);
        SweepKeepsShape(conns, route, rest);
      }
    }
  }

  // ---------------------------------------------------------------------------
  // Components
  // ---------------------------------------------------------------------------

  /**
   * A freshly built component's operatorOutputs is the length of what
   * evaluate returns for it: always for a primitive, and for a custom operator
   * whose sinks all lie below its declared output count.
   */
  lemma OutputCountMatchesEvaluation(key: string, name: string, op: Operator, color: string,
                                     inputs: seq<bool>, fuel: nat)
    requires op.Custom? ==> forall k :: 0 <= k < |op.connections| && op.connections[k].to.kind == GlobalInput ==>
      op.connections[k].to.index < op.outputs
    requires Eval(op, inputs, fuel).Ok?
    ensures |Eval(op, inputs, fuel).value| == NewComponent(key, name, op, color).operatorOutputs
  {
    if op.Custom? {
      var on := TurnedOn(op.connections, inputs, fuel).value;
      FillOutputsAt(op.connections, SinkIndices(on), Falses(op.outputs), 0);
    }
  }
}
