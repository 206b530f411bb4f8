/**
 * The simulator as the program runs it: evaluate fills an output array in a
 * loop, and computeTurnedOnPins drains a worklist while it grows two sets of
 * resolved pins. Each method is proved to compute exactly the function of
 * module Propagation that specifies it; the properties of those functions are
 * proved in module PropagationFacts.
 */
module Simulator {
  import opened Computer
  import opened Propagation

  /** evaluate: calls a primitive, or runs a custom operator's wiring and reads its sinks. */
  method Evaluate(operator: Operator, outputs: seq<bool>, fuel: nat) returns (r: Result<seq<bool>>)
    ensures r == Eval(operator, outputs, fuel)
    decreases Depth(operator), 4, 0
  {
    match operator {
      case Prim(p) =>
        return Ok(Apply(p, outputs));
      case Custom(connections, _, count) =>
        var turnedOn := ComputeTurnedOnPins(connections, outputs, fuel);
        if turnedOn.Err? {
          return Err(turnedOn.fault);
        }
        var pins := SinkIndices(turnedOn.value);
        var output := Falses(count);
        for i := 0 to |connections|
          invariant output == FillOutputs(connections[..i], pins, Falses(count))
        {
          assert connections[..i + 1][..i] == connections[..i];
          var to := connections[i].to;
          if to.kind == GlobalInput {
            output := Write(output, to.index, to.index in pins);
          }
        }
        assert connections[..|connections|] == connections;
        return Ok(output);
    }
  }

  /**
   * computeTurnedOnPins: pushes the input vector through the wiring with a
   * worklist, at most `fuel` turns, and returns the pins that end up on.
   */
  method ComputeTurnedOnPins(connections: seq<Connection>, outputs: seq<bool>, fuel: nat)
    returns (r: Result<set<Pin>>)
    ensures r == TurnedOn(connections, outputs, fuel)
    decreases ConnsDepth(connections), 3, 0
  {
    var queue := Seed(connections);
    var on: set<Pin> := {};
    var off: set<Pin> := {};
    var budget := fuel;
    while queue != []
      invariant QueueInWiring(connections, queue)
      invariant Run(connections, outputs, fuel, budget, State(queue, on, off)) == Propagate(connections, outputs, fuel)
      decreases budget
    {
      if budget == 0 {
        return Err(OutOfFuel);
      }
      ghost var before := State(queue, on, off);
      var current := queue[0];
      queue := queue[1..];
      budget := budget - 1;
      if current in on || current in off {
        continue;
      }
      var st := State(queue, on, off);
      match current.kind {
        case GlobalOutput =>
          st := VisitSourceWires(connections, current, Bit(outputs, current.index), st);
        case GlobalInput =>
          st := VisitSinkDrivers(connections, current, st);
        case Input =>
          if current.content.None? {
            return Err(Thrown("Operator is not defined for component"));
          }
          var chip := current.content.value;
          var parameterConnections := ParameterConnections(connections, chip);
          if |parameterConnections| != chip.operatorInputs {
            continue;
          }
          var params := ParameterValues(SortByTarget(parameterConnections), on, off);
          if None in params {
            continue;
          }
          ComponentBelow(connections, current);
          var status := Evaluate(chip.operator, Known(params), fuel);
          if status.Err? {
            return Err(status.fault);
          }
          st := VisitChipOutputs(connections, chip, status.value, st);
        case Output =>
          if current.content.None? {
            return Err(Thrown("Broken output component, no content defined"));
          }
          st := VisitChipDrivers(connections, current.content.value, st);
      }
      assert Step(connections, outputs, fuel, before) == Ok(st);
      queue, on, off := st.queue, st.on, st.off;
    }
    return Ok(on);
  }

  /** The pass over the wires leaving a source pin: each is resolved to the input bit. */
  method VisitSourceWires(connections: seq<Connection>, source: Pin, value: bool, st: State)
    returns (r: State)
    ensures r == Sweep(connections, FromSource(source, value), st)
  {
    var queue, on, off := st.queue, st.on, st.off;
    for i := 0 to |connections|
      invariant State(queue, on, off) == Sweep(connections[..i], FromSource(source, value), st)
    {
      assert connections[..i + 1][..i] == connections[..i];
      var from, to := connections[i].from, connections[i].to;
      if from == source {
        queue := queue + [to];
        if value {
          on := on + {from};
          if to.kind == GlobalInput {
            on := on + {to};
          }
        } else {
          off := off + {from};
          if to.kind == GlobalInput {
            off := off + {to};
          }
        }
      }
    }
    assert connections[..|connections|] == connections;
    return State(queue, on, off);
  }

  /** The pass for a popped global-input sink: queue the origin of every wire into it. */
  method VisitSinkDrivers(connections: seq<Connection>, sink: Pin, st: State) returns (r: State)
    ensures r == Sweep(connections, IntoSink(sink), st)
  {
    var queue := st.queue;
    for i := 0 to |connections|
      invariant st.(queue := queue) == Sweep(connections[..i], IntoSink(sink), st)
    {
      assert connections[..i + 1][..i] == connections[..i];
      if connections[i].to == sink {
        queue := queue + [connections[i].from];
      }
    }
    assert connections[..|connections|] == connections;
    return st.(queue := queue);
  }

  /**
   * The pass after a chip is evaluated: every wire leaving a pin of that chip
   * is resolved to the chip's result at the pin index minus the chip's input
   * count, and its end is queued.
   */
  method VisitChipOutputs(connections: seq<Connection>, chip: Component, status: seq<bool>, st: State)
    returns (r: State)
    ensures r == Sweep(connections, FromChip(chip, status), st)
  {
    var queue, on, off := st.queue, st.on, st.off;
    for i := 0 to |connections|
      invariant State(queue, on, off) == Sweep(connections[..i], FromChip(chip, status), st)
    {
      assert connections[..i + 1][..i] == connections[..i];
      var from, to := connections[i].from, connections[i].to;
      if from.content.Some? && IsSameComponent(from.content.value, chip) {
        var statusIndex := from.index - chip.operatorInputs;
        if 0 <= statusIndex < |status| && status[statusIndex] {
          on := on + {from};
          if to.kind == GlobalInput {
            on := on + {to};
          }
        } else {
          off := off + {from};
          if to.kind == GlobalInput {
            off := off + {to};
          }
        }
        queue := queue + [to];
      }
    }
    assert connections[..|connections|] == connections;
    return State(queue, on, off);
  }

  /** The pass for a popped chip output pin: queue the origin of every wire into that chip. */
  method VisitChipDrivers(connections: seq<Connection>, chip: Component, st: State) returns (r: State)
    ensures r == Sweep(connections, IntoChip(chip), st)
  {
    var queue := st.queue;
    for i := 0 to |connections|
      invariant st.(queue := queue) == Sweep(connections[..i], IntoChip(chip), st)
    {
      assert connections[..i + 1][..i] == connections[..i];
      var to := connections[i].to;
      if to.content.Some? && IsSameComponent(to.content.value, chip) {
        queue := queue + [connections[i].from];
      }
    }
    assert connections[..|connections|] == connections;
    return st.(queue := queue);
  }
}
