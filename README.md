# Logik circuit simulator: a verified model

Logik is a browser-based editor for logic circuits. A circuit is built from
components, and each component wraps an operator:

- A **primitive gate** is INV, AND, NAND or OR. It is a function from booleans to a one-element result.
- A **custom operator** is a wiring. It is a list of connections between pins:
  - *global-output* pins are the circuit's inputs, which are sources;
  - *global-input* pins are the circuit's outputs, which are sinks;
  - *input* and *output* pins belong to nested components.

This project models the simulator core:

- **computer.ts**:
  - the gates;
  - pin and component identity;
  - the component constructor, `disableDelete` and `height`;
  - `evaluate`;
  - the worklist algorithm `computeTurnedOnPins`. It pushes an input vector through a wiring and returns the pins that end up on.
- **truthTable.ts**: `createBinaryArray`, `computeTruthTable`, `isSameTruthTable` and the reference tables.
- **logic.ts**: the stand-alone gate library.

Modules:

- `Computer` (computer.dfy): the data model, the primitive gates, pin and component identity, and component construction. It also holds a ghost nesting depth that makes evaluation's recursion terminate.
- `Propagation` (propagation.dfy): one worklist turn (`Step`), the whole run (`Run`/`Propagate`), `TurnedOn` and `Eval`, all as functions. These functions are the specification.
- `Simulator` (simulator.dfy): `evaluate` and `computeTurnedOnPins` as methods with the source's loops. Each method is proved to return exactly the function that specifies it.
- `PropagationFacts` (propagation_facts.dfy): what a finished run guarantees:
  - sources carry their input bits;
  - every turned-on sink is driven by a turned-on pin;
  - outputs read exactly the turned-on sinks;
  - a chip whose number of incoming wires differs from its input count is never evaluated;
  - the shape of the worklist.
- `TruthTable` (truth_table.dfy): the big-endian encoding of row indices and its round trip, the computed tables, the comparison and its meaning, and the reference tables.
- `Logic` (logic.dfy): the gate library over booleans and the numbers 0/1, and its agreement with the simulator's gates.
- `Scenarios` (scenarios.dfy): the wirings from the test suite, computed through:
  - crossed wires swap two inputs;
  - a NOT chip between a source and a sink inverts it;
  - the pin comparisons.

Nothing external is modelled:

- A component's `key` is a fresh uuid in the source. Here it is a parameter.
- A throw is the result `Err(Thrown(message))`, carrying the source's message.
- The worklist and evaluation get a `fuel` bound. Running out of fuel gives `Err(OutOfFuel)`.

## Model

| member | source | states |
|---|---|---|
| Computer.Inv | src/services/computer.ts:6 | INV yields one value, the opposite of its first argument (a missing argument reads as false) |
| Computer.And | src/services/computer.ts:8 | AND yields one value, true exactly when both of its first two arguments are true (missing ones read as false) |
| Computer.Nand | src/services/computer.ts:10 | NAND, built as INV of AND, yields the single value not (arg0 and arg1), with missing arguments read as false |
| Computer.Or | src/services/computer.ts:12 | OR, built as NAND of the two inverted arguments, yields the single value arg0 or arg1 |
| Computer.Apply | src/services/computer.ts:6-12 | every primitive gate returns exactly one value |
| Computer.PrimitiveTruth | src/services/computer.ts:6-12 | on exactly their arity, INV/AND/NAND/OR compute boolean not/and/nand/or |
| Computer.ApplyReadsOnlyArity | src/services/computer.ts:6-12 | a gate reads only its first arity arguments: extra arguments are ignored and missing ones count as false |
| Computer.IsSameComponent | src/services/computer.ts:64-66 | two components are the same exactly when their keys are equal; names, colours and operators are not compared (its consequences for pins are IsSamePinIgnoresIdentity) |
| Computer.IsSamePin | src/services/computer.ts:44-62 | throws "Invalid pin content" exactly when the types and indices agree, the pins are component pins, and one lacks content; otherwise true exactly when type, index and owning component key agree |
| Computer.IsSamePinEquivalence | src/services/computer.ts:44-62 | on pins that can be compared without throwing, pin comparison is reflexive, symmetric, never throws, and is transitive |
| Computer.IsSamePinIgnoresIdentity | src/services/computer.ts:44-66 | the comparison depends only on type, index and component key: a copy of the component with the same key gives the same verdict |
| Computer.NewComponent | src/services/computer.ts:81-100 | a primitive's input count is its parameter count and its output count is the length of its result on all-false arguments (1); a custom operator's counts are its declared ones; a new component can be deleted |
| Computer.DisableDelete | src/services/computer.ts:102-105 | the component can no longer be deleted, and nothing else about it changes |
| Computer.Height | src/services/computer.ts:107-109 | the height is the least value that is at least 40 and at least 20 per pin on each side |
| Computer.ComponentBelow | src/services/computer.ts:122-139 | a component placed in a wiring nests strictly less deeply than the wiring, so the evaluate/computeTurnedOnPins recursion terminates |
| Propagation.Sweep | src/services/computer.ts:155-233 | one pass over the connections only adds pins to the on- and off-sets and only appends to the worklist, and every appended pin is an end of some connection |
| Propagation.Seed | src/services/computer.ts:145-147 | the initial worklist holds only global-output pins that are ends of connections, and every global-output origin of a connection is in it |
| Propagation.SeedSplit | src/services/computer.ts:145-147 | seeding two concatenated wirings gives the two worklists concatenated, so the worklist lists the origins in wiring order, one entry per global-output wire |
| Propagation.ParameterConnections | src/services/computer.ts:184-186 | every selected connection is in the wiring and ends at a pin of that very component, and every such connection is selected |
| Propagation.ParameterConnectionsCount | src/services/computer.ts:184-186 | each connection ending at a pin of the component is selected as many times as it occurs in the wiring, and no other connection is selected |
| Propagation.ParameterConnectionsSplit | src/services/computer.ts:184-186 | selecting from two concatenated wirings gives the two selections concatenated, so the selection keeps the wiring's order |
| Propagation.SortByTarget | src/services/computer.ts:192-194 | the parameter connections are sorted by target pin index, and form a permutation of the input |
| Propagation.SortByTargetStable | src/services/computer.ts:192-194 | the sort is stable: connections ending at pins with the same index come out in the order they went in |
| Propagation.ParameterValues | src/services/computer.ts:195-202 | no parameter is unresolved exactly when every wire's origin is on or off; then the argument for each wire is true exactly when its origin is on |
| Propagation.Known | src/services/computer.ts:204 | when every parameter is resolved, the arguments are exactly those values in order |
| Propagation.Step | src/services/computer.ts:149-235 | one worklist turn keeps every queued pin an end of some connection |
| Propagation.Run | src/services/computer.ts:149-237 | a run that returns has drained its worklist, never un-resolves a pin, and turns on only ends of connections of the wiring |
| Propagation.Propagate | src/services/computer.ts:141-238 | the run from the seeded worklist ends with an empty worklist, and every pin it turned on is an end of a connection |
| Propagation.TurnedOn | src/services/computer.ts:141-240 | every turned-on pin is an end of some connection of the wiring (what the set means is proved in SourcesFollowInputs, SinksFollowDrivers and ChipOutputsFollowStatus) |
| Propagation.FillOutputs | src/services/computer.ts:131-136 | the output array is never shorter than the all-false one it starts from, and an entry is true only at a turned-on sink index (exact values in FillOutputsAt) |
| Propagation.Eval | src/services/computer.ts:122-139 | a primitive returns exactly one value; a custom operator returns at least its declared number of outputs, and an output is true only when a global-input pin with that index is turned on (exact values in EvalReadsTurnedOnSinks) |
| Propagation.Write | src/services/computer.ts:134 | the array assignment sets the entry, extends a too-short array and leaves every other entry as it was (holes read as false) |
| Simulator.Evaluate | src/services/computer.ts:122-139 | the method's loop returns exactly the specified evaluation of a primitive or custom operator, including its errors |
| Simulator.ComputeTurnedOnPins | src/services/computer.ts:141-240 | the worklist loop returns exactly the specified set of turned-on pins, the thrown errors, or running out of fuel |
| Simulator.VisitSourceWires | src/services/computer.ts:155-172 | the pass over a popped source's wires resolves each wire's origin (and a global-input end) to the input bit and queues its end, as specified |
| Simulator.VisitSinkDrivers | src/services/computer.ts:173-178 | the pass for a popped global-input sink queues the origin of every wire into it, as specified |
| Simulator.VisitChipOutputs | src/services/computer.ts:206-223 | the pass after a chip's evaluation resolves each wire leaving the chip to the result bit at pin index minus input count, as specified |
| Simulator.VisitChipDrivers | src/services/computer.ts:224-233 | the pass for a popped chip output queues the origin of every wire into that chip, as specified |
| PropagationFacts.SweepSides | src/services/computer.ts:155-223 | after a pass, a pin is on (or off) exactly when it was before or one connection of the pass set it to that value |
| PropagationFacts.StepKeepsSound | src/services/computer.ts:149-235 | one worklist turn preserves the soundness invariant: each resolved source carries its input bit, unresolved sources are pending, and resolved sinks are driven |
| PropagationFacts.PropagateSound | src/services/computer.ts:141-240 | a completed run ends with an empty worklist in a sound state |
| PropagationFacts.SourcesFollowInputs | src/services/computer.ts:155-172 | after a completed run every wired global-output pin is on exactly when its input bit is true (missing bits are false) |
| PropagationFacts.SinksFollowDrivers | src/services/computer.ts:155-223 | every turned-on global-input sink is the end of a wire whose origin is turned on |
| PropagationFacts.FillOutputsAt | src/services/computer.ts:131-136 | with every sink index inside the array, output j is true exactly when some wire ends at sink j and j is among the turned-on sink indices |
| PropagationFacts.EvalReadsTurnedOnSinks | src/services/computer.ts:122-139 | when every wire into a global-input pin has an index below the declared output count, a custom operator's output has its declared length, and entry j is true exactly when a turned-on global-input pin has index j |
| PropagationFacts.DirectWiringOutputs | src/services/computer.ts:122-172 | in a wiring of direct source-to-sink wires, output j is true exactly when a wire into sink j comes from a source whose input bit is true |
| PropagationFacts.StepOnChipInput | src/services/computer.ts:179-223 | a popped chip input throws without content; it is dropped when the wired parameter count differs or a parameter is unresolved; otherwise the chip is evaluated on its sorted parameter values and its output wires are resolved |
| PropagationFacts.ChipOutputsFollowStatus | src/services/computer.ts:206-223 | after a chip is evaluated, each unresolved wire leaving it is on exactly when the result bit at pin index minus input count is true |
| PropagationFacts.IncompleteChipStaysUnresolved | src/services/computer.ts:187-190 | in a wiring with unique component keys, a chip with the wrong number of wired inputs is never evaluated: its output pins end the run neither on nor off |
| PropagationFacts.StepKeepsShape | src/services/computer.ts:145-233 | in a wiring whose wires run from sources and chip outputs to sinks and chip inputs, the worklist holds only sources, chip inputs and already-resolved sinks; so the popped pin is never a chip output and never an unresolved sink |
| PropagationFacts.OutputCountMatchesEvaluation | src/services/computer.ts:94-98 | the output count a component declares is the length of what evaluating its operator returns: always for a primitive, and for a custom operator when every wire into a global-input pin has an index below the declared output count |
| TruthTable.BigEndian | src/services/truthTable.ts:33-47 | the encoding has exactly n bits; FromBitsBigEndian and BigEndianFromBits prove it inverse to reading the bits back |
| TruthTable.FromBitsBigEndian | src/services/truthTable.ts:33-47 | reading the bits back recovers any value below 2^n |
| TruthTable.BigEndianFromBits | src/services/truthTable.ts:33-47 | any bit vector is the encoding of the value it spells |
| TruthTable.BigEndianInjective | src/services/truthTable.ts:33-47 | distinct values below 2^n have distinct encodings |
| TruthTable.CreateBinaryArray | src/services/truthTable.ts:33-47 | the in-place loop returns the big-endian encoding of the value in exactly arraySize bits; higher bits are dropped |
| TruthTable.TableFrom | src/services/truthTable.ts:50-59 | the rows are built in index order, row j holding the encoding of its index and the operator's output on it |
| TruthTable.TableFromThrows | src/services/truthTable.ts:50-59 | building rows throws exactly when some index's evaluation throws, and then with the first such index's fault |
| TruthTable.ComputeTruthTable | src/services/truthTable.ts:49-60 | a computed table has 2^inputs rows, row k holding the encoding of k, and each row's output is what evaluating the component on its inputs returns |
| TruthTable.TruthTableCovers | src/services/truthTable.ts:49-60 | a computed table has 2^inputs rows in canonical order; every input vector appears exactly once, at the row its bits spell, with the component's output |
| TruthTable.TruthTableThrows | src/services/truthTable.ts:49-60 | computing a table throws exactly when evaluating the component on some input vector throws |
| TruthTable.NoInputTable | src/services/truthTable.ts:49-60 | a component without inputs has one row with an empty input vector |
| TruthTable.ReferenceTablesTabulate | src/services/truthTable.ts:62-101 | the constants NOTHING, NOT, AND, OR, XOR, NOR and XNOR, copied row for row, are the canonical tables of identity, not, and, or, xor, nor and xnor |
| TruthTable.PrimitiveTable | src/services/truthTable.ts:49-60 | the table of a primitive gate component is canonical over its arity, and each row's output is the gate on that row's inputs |
| TruthTable.ReferenceTablesComputed | src/services/truthTable.ts:62-82 | the computed tables of INV, AND and OR components are exactly NOT, AND and OR |
| TruthTable.SameCanonical | src/services/truthTable.ts:49-60 | two canonical tables of the same width that agree on outputs row by row are equal |
| TruthTable.JoinInjective | src/services/truthTable.ts:15-16 | the "-"-joined spelling of a boolean vector determines the vector, so map keys never collide |
| TruthTable.ToMap | src/services/truthTable.ts:15-16 | the map's keys are exactly the joined input vectors of the rows |
| TruthTable.IsSameTruthTable | src/services/truthTable.ts:10-31 | the key loop returns exactly the comparison: equal lengths, and every key of a is in b with the same joined output |
| TruthTable.ToMapLookup | src/services/truthTable.ts:15-16 | in a table whose repeated input vectors share an output, the map sends each row's key to that row's output |
| TruthTable.SameTablesMeaning | src/services/truthTable.ts:10-31 | on tables whose repeated vectors share outputs, two tables are the same exactly when they have equal length and every row of the first is a row of the second |
| TruthTable.SameTablesIgnoresOrder | src/services/truthTable.ts:10-31 | on tables whose repeated input vectors share an output, reordering the rows of either table does not change the verdict |
| TruthTable.InconsistentRowsOrderMatters | src/services/truthTable.ts:15-16 | when an input vector repeats with different outputs, the map keeps the later row, so reordering the rows can change the verdict |
| TruthTable.SameTablesSymmetric | src/services/truthTable.ts:10-31 | on tables without repeated input vectors the comparison is symmetric |
| TruthTable.ComputedTableDistinct | src/services/truthTable.ts:49-60 | a computed table never repeats an input vector, so comparisons of computed tables are symmetric |
| TruthTable.RepeatedRowsAsymmetric | src/services/truthTable.ts:10-31 | with a repeated input vector the comparison is one-sided: one table matches another that the other does not match back |
| Logic.Inv | src/logic.ts:3 | INV yields one value, the opposite of its first parameter's truthiness |
| Logic.And | src/logic.ts:5 | AND yields one value, true exactly when both of its first two parameters are truthy |
| Logic.Nand | src/logic.ts:7 | NAND on booleans or 0/1 yields not (truthy arg0 and truthy arg1) |
| Logic.Or | src/logic.ts:9 | OR on booleans or 0/1 yields truthy arg0 or truthy arg1 |
| Logic.GatesAgree | src/logic.ts:1-9 | each library gate equals the simulator's gate on the parameters' truthiness |
| Scenarios.CrossedSwaps | src/services/__tests__/computer.test.ts:217-252 | the crossed wiring outputs its two inputs swapped |
| Scenarios.NotChipTurnedOn | src/services/__tests__/computer.test.ts:352-396 | in the source-NOT chip-sink wiring, a true input turns on only the source; a false one turns on the chip output and the sink |
| Scenarios.NotChipInverts | src/services/__tests__/computer.test.ts:352-396 | the custom operator built from one NOT chip inverts its input |
| Scenarios.PinComparisons | src/services/__tests__/computer.test.ts:74-170 | a chip pin differs from a global pin; pins of components with different keys differ; global pins with the same type and index are the same pin; pins of components that share a key are the same pin whatever their names and colours |

## Left out

- The width getter (computer.ts:111-119) measures rendered text with an external library; text layout is not modelled.
- The uuid key: `NewComponent` takes the key as a parameter instead of generating one.
- Drawing positions `x`, `y` and the colour have no effect on simulation; they are carried only as plain fields, or left out.
- Computer.DisableDelete: modelled on values. It returns the updated component but does not capture updating in place, returning `this`, or aliasing with other references to the same component.
- Computer.NewComponent: the constructor is a function on values, not an allocating constructor.
- The console.warn calls in computeTurnedOnPins (computer.ts:188, 198) only log; they are left out.
- Propagation.Run: the worklist and nested evaluation carry a fuel bound. When it runs out, the result is `Err(OutOfFuel)`. The source has no bound, and the model does not prove that its worklist drains. The source can loop forever when a wire ends at a chip output pin: the output-pin branch (computer.ts:224-233) queues again the origin of every wire into that chip, which includes the popped pin itself when that wire comes from it. In wirings whose wires run from sources and chip outputs to sinks and chip inputs, StepKeepsShape shows that branch is never taken. That divergence is not modelled.
- Chips are gated by wire count, as in the source (computer.ts:187): a chip is evaluated when the number of wires into it equals its input count; which input indices those wires reach is not checked, so two wires into one input and none into another still evaluate the chip.
- Pin indices and the arities of custom operators are non-negative integers (`nat`). The source types them as JavaScript numbers; negative or fractional indices, where `output[-1] = …` adds a property instead of an element and `outputs[-1]` reads undefined, are not modelled.
- Propagation.Step: computer.ts:180 throws when `content?.operator` is undefined. In the model every component has an operator, so the throw happens only when the content is missing.
- The "Unknown component type" throw at computer.ts:235-237 cannot happen: the model's pin type has exactly the four cases.
- Propagation.Write: the source writes `output[to.index]` past the end of an array, leaving holes. The model fills holes with false, which is how they read (they are falsy). The difference shows in isSameTruthTable: `join("-")` spells a hole as an empty string and false as "false" (truthTable.ts:20-21). So when a global-input sink index is at least the declared output count plus one, the source can report two tables as different where the model reports them the same.
- TruthTable.CreateBinaryArray: the value is a natural number. Negative or fractional values are not modelled; computeTruthTable passes only row indices.
- TruthTable.CreateBinaryArray: the default `arraySize = 1` (truthTable.ts:33) is not modelled; the only caller, computeTruthTable, always passes the size.
- TruthTable.ToMap and IsSameTruthTable: `params.join("-")` and `output.join("-")` are modelled by Join over booleans. `Object.fromEntries`' plain-object keys are modelled by a map.
- Logic: parameters are booleans or the numbers 0 and 1, matching the declared parameter type. Other JavaScript values are not modelled.
- PropagationFacts: the results about completed runs assume a well-formed wiring (no global pin carries a component) and, where stated, unique component keys. A component pin without content is not excluded: it throws, as in the source.
- Persistence (storage.ts), dragging (drag.ts), colours (colors.ts), long-press handling and the Vue user interface are outside the simulator core.
- truthTable.test.ts:17-36 lists table rows with the first parameter changing fastest (little-endian). computeTruthTable orders rows big-endian (truthTable.ts:33-47), and the model follows the code.
- truthTable.test.ts:118-126 reads `truthTables.INV`, which truthTable.ts:62-101 does not define (the inverter table is called NOT). The model has only the tables the code defines.
- computer.test.ts uses an older pin shape: a pin's `chip` is a wrapper record `{key, x, y, component}`, and pins are matched by that wrapper's key. The scenarios restate those tests with the current field, `content`, carrying the wrapper's key over as the component's key.
