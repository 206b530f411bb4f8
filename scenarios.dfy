/**
 * Worked circuits: the crossed two-wire operator and the operator wrapping a
 * single NOT chip, traced turn by turn for every input value.
 */
module Scenarios {
  import opened Computer
  import opened Propagation
  import opened PropagationFacts

  // ---------------------------------------------------------------------------
  // Two crossed wires: source 0 to sink 1, source 1 to sink 0
  // ---------------------------------------------------------------------------

  const Source0 := Pin(GlobalOutput, 0, None, 0)
  const Source1 := Pin(GlobalOutput, 1, None, 1)
  const Sink0 := Pin(GlobalInput, 0, None, 2)
  const Sink1 := Pin(GlobalInput, 1, None, 3)
  const Crossed := [Connection("a", Source0, Sink1), Connection("b", Source1, Sink0)]

  /** A pass over two wires visits the first, then the second. */
  lemma SweepPair(c0: Connection, c1: Connection, route: Route, st: State)
    ensures Sweep([c0, c1], route, st) == Visit(route, Visit(route, st, c0), c1)
  {
    assert [c0, c1][..1] == [c0];
    assert [c0][..0] == [];
    assert Sweep([], route, st) == st;
    assert Sweep([c0], route, st) == Visit(route, st, c0);
  }

  lemma SeedPair(c0: Connection, c1: Connection)
    ensures Seed([c0, c1]) ==
      (if c0.from.kind == GlobalOutput then [c0.from] else []) + (if c1.from.kind == GlobalOutput then [c1.from] else [])
  {
    assert [c0, c1][..1] == [c0];
    assert [c0][..0] == [];
    assert Seed([c0]) == [] + (if c0.from.kind == GlobalOutput then [c0.from] else []);
  }

  /** The first turn resolves source 0 and the sink wired to it, and queues that sink. */
  lemma CrossedFirstTurn(b0: bool, b1: bool, fuel: nat)
    ensures Start(Crossed) == State([Source0, Source1], {}, {})
    ensures Step(Crossed, [b0, b1], fuel, Start(Crossed)) ==
      Ok(State([Source1, Sink1], if b0 then {Source0, Sink1} else {}, if b0 then {} else {Source0, Sink1}))
  {
    SeedPair(Crossed[0], Crossed[1]);
    assert Seed(Crossed) == [Source0, Source1];
    var rest := State([Source1], {}, {});
    SweepPair(Crossed[0], Crossed[1], FromSource(Source0, b0), rest);
    assert Bit([b0, b1], 0) == b0;
    assert Occurs(Crossed, Source0) && Occurs(Crossed, Source1);
    StepOnSource(Crossed, [b0, b1], fuel, Start(Crossed));
    var v1 := Visit(FromSource(Source0, b0), rest, Crossed[0]);
    assert v1 == State([Source1, Sink1], if b0 then {Source0, Sink1} else {}, if b0 then {} else {Source0, Sink1});
    assert Visit(FromSource(Source0, b0), v1, Crossed[1]) == v1;
  }

  /** The second turn resolves source 1 and the sink wired to it, and queues that sink. */
  lemma CrossedSecondTurn(b0: bool, b1: bool, fuel: nat, on1: set<Pin>, off1: set<Pin>)
    requires Source1 !in on1 && Source1 !in off1
    ensures QueueInWiring(Crossed, [Source1, Sink1])
    ensures Step(Crossed, [b0, b1], fuel, State([Source1, Sink1], on1, off1)) ==
      Ok(State([Sink1, Sink0], on1 + (if b1 then {Source1, Sink0} else {}), off1 + (if b1 then {} else {Source1, Sink0})))
  {
    assert Occurs(Crossed, Crossed[0].to) && Occurs(Crossed, Crossed[1].from);
    var rest := State([Sink1], on1, off1);
    SweepPair(Crossed[0], Crossed[1], FromSource(Source1, b1), rest);
    assert Bit([b0, b1], 1) == b1;
    StepOnSource(Crossed, [b0, b1], fuel, State([Source1, Sink1], on1, off1));
    assert Visit(FromSource(Source1, b1), rest, Crossed[0]) == rest;
    assert Visit(FromSource(Source1, b1), rest, Crossed[1]) ==
      State([Sink1, Sink0], on1 + (if b1 then {Source1, Sink0} else {}), off1 + (if b1 then {} else {Source1, Sink0}));
  }

  /** Four turns drain the crossed wiring: two sources, then two resolved sinks. */
  lemma CrossedCompletes(b0: bool, b1: bool, fuel: nat)
    requires fuel >= 4
    ensures Propagate(Crossed, [b0, b1], fuel).Ok?
  {
    var inputs := [b0, b1];
    var on1 := if b0 then {Source0, Sink1} else {};
    var off1 := if b0 then {} else {Source0, Sink1};
    var st1 := State([Source1, Sink1], on1, off1);
    CrossedFirstTurn(b0, b1, fuel);
    CrossedSecondTurn(b0, b1, fuel, on1, off1);
    var on2 := on1 + (if b1 then {Source1, Sink0} else {});
    var off2 := off1 + (if b1 then {} else {Source1, Sink0});
    var st2 := State([Sink1, Sink0], on2, off2);
    var st3 := State([Sink0], on2, off2);
    assert Step(Crossed, inputs, fuel, st2) == Ok(st3);
    assert Sink0 in on2 || Sink0 in off2;
    assert st3.queue[1..] == [];
    assert Step(Crossed, inputs, fuel, st3) == Ok(State([], on2, off2));
    assert Run(Crossed, inputs, fuel, fuel - 3, st3).Ok?;
    assert Run(Crossed, inputs, fuel, fuel - 2, st2).Ok?;
    assert Run(Crossed, inputs, fuel, fuel - 1, st1).Ok?;
  }

  /** The crossed operator with two inputs and two outputs swaps its inputs. */
  lemma CrossedSwaps(b0: bool, b1: bool, fuel: nat)
    requires fuel >= 4
    ensures Eval(Custom(Crossed, 2, 2), [b0, b1], fuel) == Ok([b1, b0])
  {
    var inputs := [b0, b1];
    CrossedCompletes(b0, b1, fuel);
    assert TurnedOn(Crossed, inputs, fuel).Ok?;
    assert WellFormed(Crossed);
    var out := Eval(Custom(Crossed, 2, 2), inputs, fuel).value;
    DirectWiringOutputs(Crossed, 2, 2, inputs, fuel, 0);
    DirectWiringOutputs(Crossed, 2, 2, inputs, fuel, 1);
    assert Bit(inputs, 0) == b0 && Bit(inputs, 1) == b1;
    assert Crossed[1].to.index == 0 && Crossed[0].to.index == 1;
    assert out[0] == b1 && out[1] == b0;
    assert out == [b1, b0];
  }

  // ---------------------------------------------------------------------------
  // One NOT chip between source 0 and sink 0
  // ---------------------------------------------------------------------------

  const Not := NewComponent("chip1", "NOT", Prim(INV), "#ff0000")
  const Source := Pin(GlobalOutput, 0, None, 0)
  const ChipIn := Pin(Input, 0, Some(Not), 1)
  const ChipOut := Pin(Output, 1, Some(Not), 2)
  const Sink := Pin(GlobalInput, 0, None, 3)
  const NotWiring := [Connection("in", Source, ChipIn), Connection("out", ChipOut, Sink)]

  /**
   * Three turns: the source resolves and queues the chip input; the chip, whose
   * one wire is now resolved, is evaluated and resolves its output pin (index
   * 1, result entry 1 - 1 = 0) and the sink; the sink is then dropped. With
   * input true only the source is on; with input false the chip output and
   * the sink are on.
   */
  lemma NotChipTurnedOn(b: bool, fuel: nat)
    requires fuel >= 3
    ensures TurnedOn(NotWiring, [b], fuel) == Ok(if b then {Source} else {ChipOut, Sink})
  {
    var inputs := [b];
    SeedPair(NotWiring[0], NotWiring[1]);
    var st1 := NotChipFirstTurn(b, fuel);
    var st2 := NotChipSecondTurn(b, fuel);
    assert Propagate(NotWiring, inputs, fuel) == Run(NotWiring, inputs, fuel, fuel - 1, st1);
    var st3 := st2.(queue := []);
    assert Sink in st2.on || Sink in st2.off;
    assert st2.queue[1..] == [];
    assert Step(NotWiring, inputs, fuel, st2) == Ok(st3);
    assert Run(NotWiring, inputs, fuel, fuel - 2, st2) == Ok(st3);
    assert Run(NotWiring, inputs, fuel, fuel - 1, st1) == Ok(st3);
  }

  /** The first turn resolves the source to the input and queues the chip input. */
  lemma NotChipFirstTurn(b: bool, fuel: nat) returns (st1: State)
    ensures st1 == State([ChipIn], if b then {Source} else {}, if b then {} else {Source})
    ensures Start(NotWiring).queue != [] && Step(NotWiring, [b], fuel, Start(NotWiring)) == Ok(st1)
  {
    var inputs := [b];
    SeedPair(NotWiring[0], NotWiring[1]);
    var st0 := Start(NotWiring);
    assert st0 == State([Source], {}, {});
    st1 := State([ChipIn], if b then {Source} else {}, if b then {} else {Source});
    SweepPair(NotWiring[0], NotWiring[1], FromSource(Source, b), State([], {}, {}));
    assert Bit(inputs, 0) == b;
    assert Step(NotWiring, inputs, fuel, st0) == Ok(Sweep(NotWiring, FromSource(Source, b), State([], {}, {})));
    var v1 := Visit(FromSource(Source, b), State([], {}, {}), NotWiring[0]);
    assert v1 == st1;
    assert Visit(FromSource(Source, b), v1, NotWiring[1]) == v1;
  }

  /** Exactly one wire ends at the NOT chip, and its origin is the source. */
  lemma NotChipParameters()
    ensures ParameterConnections(NotWiring, Not) == [NotWiring[0]]
    ensures SortByTarget([NotWiring[0]]) == [NotWiring[0]]
  {
    assert NotWiring[..1] == [NotWiring[0]] && [NotWiring[0]][..0] == [];
    assert ParameterConnections([], Not) == [];
    assert ParameterConnections([NotWiring[0]], Not) == [NotWiring[0]];
    assert SortByTarget([]) == [];
    assert [NotWiring[0]][..0] == [];
  }

  /** The pass after the chip returns [!b]: its output pin and the sink take !b. */
  lemma NotChipOutputPass(b: bool)
    ensures var st1 := State([], if b then {Source} else {}, if b then {} else {Source});
      Sweep(NotWiring, FromChip(Not, [!b]), st1) ==
        State([Sink], if b then {Source} else {ChipOut, Sink}, if b then {ChipOut, Sink} else {Source})
  {
    var st1 := State([], if b then {Source} else {}, if b then {} else {Source});
    SweepPair(NotWiring[0], NotWiring[1], FromChip(Not, [!b]), st1);
    assert Visit(FromChip(Not, [!b]), st1, NotWiring[0]) == st1;
    assert StatusBit([!b], ChipOut.index - Not.operatorInputs) == !b;
  }

  /**
   * The second turn evaluates the chip on its one resolved wire and resolves
   * its output pin and the sink to the inverted input.
   */
  lemma NotChipSecondTurn(b: bool, fuel: nat) returns (st2: State)
    ensures st2 == State([Sink], if b then {Source} else {ChipOut, Sink}, if b then {ChipOut, Sink} else {Source})
    ensures var st1 := State([ChipIn], if b then {Source} else {}, if b then {} else {Source});
      QueueInWiring(NotWiring, st1.queue) && Step(NotWiring, [b], fuel, st1) == Ok(st2)
  {
    var inputs := [b];
    var st1 := State([ChipIn], if b then {Source} else {}, if b then {} else {Source});
    assert NotWiring[0].to == ChipIn;
    assert Occurs(NotWiring, ChipIn);
    NotChipParameters();
    var values := ParameterValues([NotWiring[0]], st1.on, st1.off);
    assert values == [Some(b)];
    assert Known(values) == [b];
    assert Eval(Not.operator, [b], fuel) == Ok([!b]);
    NotChipOutputPass(b);
    st2 := State([Sink], if b then {Source} else {ChipOut, Sink}, if b then {ChipOut, Sink} else {Source});
    assert st1.queue[1..] == [];
    StepOnChipInput(NotWiring, inputs, fuel, st1);
  }

  /** The operator wrapping one NOT chip, with one input and one output, inverts. */
  lemma NotChipInverts(b: bool, fuel: nat)
    requires fuel >= 3
    ensures Eval(Custom(NotWiring, 1, 1), [b], fuel) == Ok([!b])
  {
    NotChipTurnedOn(b, fuel);
    var on := if b then {Source} else {ChipOut, Sink};
    assert SinkIndices(on) == if b then {} else {0};
    FillOutputsAt(NotWiring, SinkIndices(on), Falses(1), 0);
    assert NotWiring[1].to.kind == GlobalInput && NotWiring[1].to.index == 0;
    var out := FillOutputs(NotWiring, SinkIndices(on), Falses(1));
    assert out == [!b];
  }

  // ---------------------------------------------------------------------------
  // Pin comparisons
  // ---------------------------------------------------------------------------

  /**
   * A chip output pin is not a global-input pin; output pins of components
   * with different keys differ; two global pins with the same type and index
   * are the same whatever their identity; and pins of two components that
   * share a key are the same pin even when the components' names and colours
   * differ, since only the key is compared.
   */
  lemma PinComparisons()
    ensures var c := NewComponent("chip1", "test", Prim(INV), "#ff0000");
      IsSamePin(Pin(Output, 0, Some(c), 0), Pin(GlobalInput, 1, None, 1)) == Ok(false)
    ensures var x := NewComponent("asdf", "", Prim(INV), "#fffff");
      var y := NewComponent("fdsa", "", Prim(INV), "#fffff");
      IsSamePin(Pin(Output, 0, Some(x), 0), Pin(Output, 0, Some(y), 1)) == Ok(false)
    ensures IsSamePin(Pin(GlobalOutput, 1, None, 0), Pin(GlobalOutput, 1, None, 1)) == Ok(true)
    ensures var original := NewComponent("chip1", "name", Prim(INV), "#000000");
      var copy := original.(name := "", color := "#ffffff");
      IsSamePin(Pin(Output, 1, Some(original), 0), Pin(Output, 1, Some(copy), 1)) == Ok(true)
  {
  }
}
