/**
 * Truth tables: enumerating every input vector of a component in big-endian
 * binary order, evaluating the component on each, and comparing two tables
 * row by row whatever their order.
 */
module TruthTable {
  import opened Computer
  import opened Propagation

  /** One row: an input vector and what evaluate returned for it. */
  datatype Row = Row(params: seq<bool>, output: seq<bool>)

  // ---------------------------------------------------------------------------
  // Binary encoding of row indices
  // ---------------------------------------------------------------------------

  function Pow2(n: nat): (p: nat)
    ensures p >= 1
  {
    if n == 0 then 1 else 2 * Pow2(n - 1)
  }

  /** The low n bits of v, most significant first. */
  function BigEndian(v: nat, n: nat): (bits: seq<bool>)
    ensures |bits| == n
  {
    if n == 0 then [] else BigEndian(v / 2, n - 1) + [v % 2 == 1]
  }

  /** The number a bit vector spells, most significant bit first. */
  function FromBits(bits: seq<bool>): (v: nat)
    ensures v < Pow2(|bits|)
  {
    if bits == [] then 0 else 2 * FromBits(bits[..|bits| - 1]) + (if bits[|bits| - 1] then 1 else 0)
  }

  lemma {:induction false} FromBitsBigEndian(v: nat, n: nat)
    requires v < Pow2(n)
    ensures FromBits(BigEndian(v, n)) == v
  {
    if n > 0 {
      FromBitsBigEndian(v / 2, n - 1);
      assert BigEndian(v, n)[..n - 1] == BigEndian(v / 2, n - 1);
    }
  }

  lemma {:induction false} BigEndianFromBits(bits: seq<bool>)
    ensures BigEndian(FromBits(bits), |bits|) == bits
  {
    if bits != [] {
      var init := bits[..|bits| - 1];
      BigEndianFromBits(init);
      assert FromBits(bits) / 2 == FromBits(init);
      assert bits == init + [bits[|bits| - 1]];
    }
  }

  /** Zero spells all-false bits. */
  lemma {:induction false} BigEndianZero(n: nat)
    ensures BigEndian(0, n) == Falses(n)
  {
    if n > 0 {
      BigEndianZero(n - 1);
    }
  }

  /** Different row indices below 2^n spell different input vectors. */
  lemma BigEndianInjective(v: nat, w: nat, n: nat)
    requires v < Pow2(n) && w < Pow2(n) && v != w
    ensures BigEndian(v, n) != BigEndian(w, n)
  {
    FromBitsBigEndian(v, n);
    FromBitsBigEndian(w, n);
  }

  /** The number of leading array positions not yet written when the cursor is at i. */
  function Untouched(i: int): nat {
    if i + 1 >= 0 then i + 1 else 0
  }

  /** Writing bit v % 2 at position i moves the boundary of the untouched prefix one step left. */
  lemma WriteBit(target: seq<bool>, v: nat, i: nat, before: seq<bool>, after: seq<bool>)
    requires i < |before| && !before[i] && after == before[i := v % 2 == 1]
    requires target == BigEndian(v, i + 1) + before[i + 1..]
    ensures target == BigEndian(v / 2, i) + after[i..]
  {
    assert after[i..] == [v % 2 == 1] + before[i + 1..];
  }

  /**
   * createBinaryArray: fills an array of arraySize falses, then writes the
   * bits of value from the last position backwards while value stays
   * positive. A write before the first position adds no element, so bits
   * beyond arraySize are dropped.
   */
  method CreateBinaryArray(value: nat, arraySize: nat) returns (bits: seq<bool>)
    ensures bits == BigEndian(value, arraySize)
  {
    var binaryArray := new bool[arraySize](_ => false);
    var i: int := binaryArray.Length - 1;
    var v := value;
    while v > 0
      invariant i < arraySize
      invariant forall k :: 0 <= k <= i ==> !binaryArray[k]
      invariant BigEndian(value, arraySize) == BigEndian(v, Untouched(i)) + binaryArray[Untouched(i)..]
      decreases v
    {
      if i >= 0 {
        ghost var before := binaryArray[..];
        if v % 2 != 0 {
          binaryArray[i] := true;
        }
        WriteBit(BigEndian(value, arraySize), v, i, before, binaryArray[..]);
      }
      v := v / 2;
      i := i - 1;
    }
    BigEndianZero(Untouched(i));
    assert binaryArray[..Untouched(i)] == Falses(Untouched(i));
    assert binaryArray[..] == binaryArray[..Untouched(i)] + binaryArray[Untouched(i)..];
    return binaryArray[..];
  }

  // ---------------------------------------------------------------------------
  // Computing a table
  // ---------------------------------------------------------------------------

  /**
   * The rows for indices index .. total-1, built in index order; the first
   * index whose evaluation throws makes the whole table throw.
   */
  function TableFrom(op: Operator, n: nat, fuel: nat, index: nat, total: nat): (r: Result<seq<Row>>)
    requires index <= total
    ensures r.Ok? ==>
      |r.value| == total - index &&
      forall j :: 0 <= j < |r.value| ==>
        r.value[j].params == BigEndian(index + j, n) && Eval(op, r.value[j].params, fuel) == Ok(r.value[j].output)
    decreases total - index
  {
    if index == total then Ok([])
    else
      var params := BigEndian(index, n);
      var output := Eval(op, params, fuel);
      if output.Err? then Err(output.fault)
      else
        var rest := TableFrom(op, n, fuel, index + 1, total);
        if rest.Err? then Err(rest.fault)
        else Ok([Row(params, output.value)] + rest.value)
  }

  /** Index j is the first index from `index` on whose evaluation throws, with fault f. */
  ghost predicate FirstThrow(op: Operator, n: nat, fuel: nat, index: nat, j: nat, f: Fault) {
    index <= j && Eval(op, BigEndian(j, n), fuel) == Err(f) &&
    forall i :: index <= i < j ==> Eval(op, BigEndian(i, n), fuel).Ok?
  }

  /**
   * Building the rows throws exactly when some index's evaluation throws, and
   * then with the fault of the first such index.
   */
  lemma {:induction false} TableFromThrows(op: Operator, n: nat, fuel: nat, index: nat, total: nat)
    requires index <= total
    ensures TableFrom(op, n, fuel, index, total).Err? <==>
      exists j :: index <= j < total && Eval(op, BigEndian(j, n), fuel).Err?
    ensures TableFrom(op, n, fuel, index, total).Err? ==>
      exists j: nat :: j < total && FirstThrow(op, n, fuel, index, j, TableFrom(op, n, fuel, index, total).fault)
    decreases total - index
  {
    var r := TableFrom(op, n, fuel, index, total);
    if index < total {
      if Eval(op, BigEndian(index, n), fuel).Err? {
        assert r == Err(Eval(op, BigEndian(index, n), fuel).fault);
        assert FirstThrow(op, n, fuel, index, index, r.fault);
      } else {
        TableFromThrows(op, n, fuel, index + 1, total);
        var rest := TableFrom(op, n, fuel, index + 1, total);
        assert r.Err? <==> rest.Err?;
        if r.Err? {
          var j: nat :| j < total && FirstThrow(op, n, fuel, index + 1, j, rest.fault);
          assert FirstThrow(op, n, fuel, index, j, r.fault);
        }
      }
    }
  }

  /** computeTruthTable: one row per input vector of the component, 2^operatorInputs rows. */
  function ComputeTruthTable(c: Component, fuel: nat): (r: Result<seq<Row>>)
    ensures r.Ok? ==>
      Canonical(r.value, c.operatorInputs) &&
      forall k :: 0 <= k < |r.value| ==> Eval(c.operator, r.value[k].params, fuel) == Ok(r.value[k].output)
  {
    TableFrom(c.operator, c.operatorInputs, fuel, 0, Pow2(c.operatorInputs))
  }

  /** Row k of a table, as computeTruthTable orders them, has the input vector spelling k. */
  ghost predicate Canonical(t: seq<Row>, n: nat) {
    |t| == Pow2(n) && forall k :: 0 <= k < |t| ==> t[k].params == BigEndian(k, n)
  }

  /**
   * A computed table lists every input vector of the component's width exactly
   * once, vector `bits` at row FromBits(bits), with the component's output.
   */
  lemma TruthTableCovers(c: Component, fuel: nat, bits: seq<bool>)
    requires ComputeTruthTable(c, fuel).Ok? && |bits| == c.operatorInputs
    ensures var rows := ComputeTruthTable(c, fuel).value;
      Canonical(rows, c.operatorInputs) &&
      FromBits(bits) < |rows| && rows[FromBits(bits)].params == bits &&
      Eval(c.operator, bits, fuel) == Ok(rows[FromBits(bits)].output) &&
      forall k :: 0 <= k < |rows| && k != FromBits(bits) ==> rows[k].params != bits
  {
    var rows := ComputeTruthTable(c, fuel).value;
    BigEndianFromBits(bits);
    forall k | 0 <= k < |rows| && k != FromBits(bits)
      ensures rows[k].params != bits
    {
      BigEndianInjective(k, FromBits(bits), |bits|);
    }
  }

  /** A table throws exactly when evaluating the component on some input vector throws. */
  lemma TruthTableThrows(c: Component, fuel: nat)
    ensures ComputeTruthTable(c, fuel).Err? <==>
      exists bits :: |bits| == c.operatorInputs && Eval(c.operator, bits, fuel).Err?
  {
    var n := c.operatorInputs;
    TableFromThrows(c.operator, n, fuel, 0, Pow2(n));
    if exists bits :: |bits| == n && Eval(c.operator, bits, fuel).Err? {
      var bits :| |bits| == n && Eval(c.operator, bits, fuel).Err?;
      BigEndianFromBits(bits);
      assert Eval(c.operator, BigEndian(FromBits(bits), n), fuel).Err?;
    }
  }

  /** A component without inputs has a single row with an empty input vector. */
  lemma NoInputTable(c: Component, fuel: nat)
    requires c.operatorInputs == 0 && Eval(c.operator, [], fuel).Ok?
    ensures ComputeTruthTable(c, fuel) == Ok([Row([], Eval(c.operator, [], fuel).value)])
  {
    var row := Row([], Eval(c.operator, [], fuel).value);
    assert BigEndian(0, 0) == [] && Pow2(0) == 1;
    assert TableFrom(c.operator, 0, fuel, 1, 1) == Ok([]);
    assert [row] + [] == [row];
    assert ComputeTruthTable(c, fuel) == TableFrom(c.operator, 0, fuel, 0, 1);
  }

  // ---------------------------------------------------------------------------
  // The reference tables
  // ---------------------------------------------------------------------------

  const NOTHING: seq<Row> := [Row([false], [false]), Row([true], [true])]
  const NOT: seq<Row> := [Row([false], [true]), Row([true], [false])]
  const AND: seq<Row> := [Row([false, false], [false]), Row([false, true], [false]),
                          Row([true, false], [false]), Row([true, true], [true])]
  const OR: seq<Row> := [Row([false, false], [false]), Row([false, true], [true]),
                         Row([true, false], [true]), Row([true, true], [true])]
  const XOR: seq<Row> := [Row([false, false], [false]), Row([false, true], [true]),
                          Row([true, false], [true]), Row([true, true], [false])]
  const NOR: seq<Row> := [Row([false, false], [true]), Row([false, true], [false]),
                          Row([true, false], [false]), Row([true, true], [false])]
  const XNOR: seq<Row> := [Row([false, false], [true]), Row([false, true], [false]),
                           Row([true, false], [false]), Row([true, true], [true])]

  /** The table a computed table of a one-output function f of n inputs would be. */
  ghost predicate Tabulates(t: seq<Row>, n: nat, f: seq<bool> -> bool) {
    Canonical(t, n) && forall k :: 0 <= k < |t| ==> t[k].output == [f(t[k].params)]
  }

  lemma OneInputTable(t: seq<Row>, f: seq<bool> -> bool)
    requires t == [Row([false], [f([false])]), Row([true], [f([true])])]
    ensures Tabulates(t, 1, f)
  {
    Spell2();
  }

  lemma TwoInputTable(t: seq<Row>, f: seq<bool> -> bool)
    requires t == [Row([false, false], [f([false, false])]), Row([false, true], [f([false, true])]),
                   Row([true, false], [f([true, false])]), Row([true, true], [f([true, true])])]
    ensures Tabulates(t, 2, f)
  {
    Spell2();
    assert Pow2(2) == 4;
    forall k | 0 <= k < |t|
      ensures t[k].params == BigEndian(k, 2)
    {
      if k == 0 {
      } else if k == 1 {
      } else if k == 2 {
      } else {
      }
    }
  }

  /**
   * Each reference table lists its rows in computeTruthTable's order and
   * tabulates the gate it is named after.
   */
  lemma ReferenceTablesTabulate()
    ensures Tabulates(NOTHING, 1, bits => Arg(bits, 0))
    ensures Tabulates(NOT, 1, bits => !Arg(bits, 0))
    ensures Tabulates(AND, 2, bits => Arg(bits, 0) && Arg(bits, 1))
    ensures Tabulates(OR, 2, bits => Arg(bits, 0) || Arg(bits, 1))
    ensures Tabulates(XOR, 2, bits => Arg(bits, 0) != Arg(bits, 1))
    ensures Tabulates(NOR, 2, bits => !(Arg(bits, 0) || Arg(bits, 1)))
    ensures Tabulates(XNOR, 2, bits => Arg(bits, 0) == Arg(bits, 1))
  {
    OneInputTable(NOTHING, bits => Arg(bits, 0));
    OneInputTable(NOT, bits => !Arg(bits, 0));
    TwoInputTable(AND, bits => Arg(bits, 0) && Arg(bits, 1));
    TwoInputTable(OR, bits => Arg(bits, 0) || Arg(bits, 1));
    TwoInputTable(XOR, bits => Arg(bits, 0) != Arg(bits, 1));
    TwoInputTable(NOR, bits => !(Arg(bits, 0) || Arg(bits, 1)));
    TwoInputTable(XNOR, bits => Arg(bits, 0) == Arg(bits, 1));
  }

  lemma Spell2()
    ensures BigEndian(0, 1) == [false] && BigEndian(1, 1) == [true]
    ensures BigEndian(0, 2) == [false, false] && BigEndian(1, 2) == [false, true]
    ensures BigEndian(2, 2) == [true, false] && BigEndian(3, 2) == [true, true]
  {
    assert BigEndian(0, 1) == BigEndian(0, 0) + [false];
    assert BigEndian(1, 1) == BigEndian(0, 0) + [true];
    assert BigEndian(1, 2) == BigEndian(0, 1) + [true];
    assert BigEndian(2, 2) == BigEndian(1, 1) + [false];
    assert BigEndian(3, 2) == BigEndian(1, 1) + [true];
  }

  /** The table of a primitive gate tabulates the gate on its own arity. */
  lemma PrimitiveTable(key: string, name: string, p: PrimOp, color: string, fuel: nat)
    ensures var c := NewComponent(key, name, Prim(p), color);
      ComputeTruthTable(c, fuel).Ok? &&
      Tabulates(ComputeTruthTable(c, fuel).value, Arity(p), bits => Apply(p, bits)[0])
  {
    var c := NewComponent(key, name, Prim(p), color);
    TableFromThrows(c.operator, Arity(p), fuel, 0, Pow2(Arity(p)));
    var rows := ComputeTruthTable(c, fuel).value;
    forall k | 0 <= k < |rows|
      ensures rows[k].output == [Apply(p, rows[k].params)[0]]
    {
      assert Eval(c.operator, rows[k].params, fuel) == Ok(rows[k].output);
    }
  }

  /** The INV, AND and OR components compute exactly the NOT, AND and OR reference tables. */
  lemma ReferenceTablesComputed(key: string, name: string, color: string, fuel: nat)
    ensures ComputeTruthTable(NewComponent(key, name, Prim(INV), color), fuel) == Ok(NOT)
    ensures ComputeTruthTable(NewComponent(key, name, Prim(PrimOp.AND), color), fuel) == Ok(AND)
    ensures ComputeTruthTable(NewComponent(key, name, Prim(PrimOp.OR), color), fuel) == Ok(OR)
  {
    InvTableComputed(key, name, color, fuel);
    AndTableComputed(key, name, color, fuel);
    OrTableComputed(key, name, color, fuel);
  }

  lemma InvTableComputed(key: string, name: string, color: string, fuel: nat)
    ensures ComputeTruthTable(NewComponent(key, name, Prim(INV), color), fuel) == Ok(NOT)
  {
    PrimitiveTable(key, name, INV, color, fuel);
    OneInputTable(NOT, bits => !Arg(bits, 0));
    SameCanonical(ComputeTruthTable(NewComponent(key, name, Prim(INV), color), fuel).value, NOT, 1);
  }

  lemma AndTableComputed(key: string, name: string, color: string, fuel: nat)
    ensures ComputeTruthTable(NewComponent(key, name, Prim(PrimOp.AND), color), fuel) == Ok(AND)
  {
    PrimitiveTable(key, name, PrimOp.AND, color, fuel);
    TwoInputTable(AND, bits => Arg(bits, 0) && Arg(bits, 1));
    SameCanonical(ComputeTruthTable(NewComponent(key, name, Prim(PrimOp.AND), color), fuel).value, AND, 2);
  }

  lemma OrTableComputed(key: string, name: string, color: string, fuel: nat)
    ensures ComputeTruthTable(NewComponent(key, name, Prim(PrimOp.OR), color), fuel) == Ok(OR)
  {
    PrimitiveTable(key, name, PrimOp.OR, color, fuel);
    TwoInputTable(OR, bits => Arg(bits, 0) || Arg(bits, 1));
    SameCanonical(ComputeTruthTable(NewComponent(key, name, Prim(PrimOp.OR), color), fuel).value, OR, 2);
  }

  lemma SameCanonical(s: seq<Row>, t: seq<Row>, n: nat)
    requires Canonical(s, n) && Canonical(t, n)
    requires forall k :: 0 <= k < |s| ==> s[k].output == t[k].output
    ensures s == t
  {
  }

  // ---------------------------------------------------------------------------
  // Comparing tables
  // ---------------------------------------------------------------------------

  function Word(b: bool): string {
    if b then "true" else "false"
  }

  /** The "-"-joined spelling of a boolean vector, used as a map key. */
  function Join(bits: seq<bool>): string {
    if |bits| == 0 then ""
    else if |bits| == 1 then Word(bits[0])
    else Word(bits[0]) + "-" + Join(bits[1..])
  }

  /** Joined spellings are unambiguous: two vectors with the same spelling are equal. */
  lemma {:induction false} JoinInjective(a: seq<bool>, b: seq<bool>)
    requires Join(a) == Join(b)
    ensures a == b
  {
    if a != [] && b != [] {
      assert Join(a)[0] == Join(b)[0];
      assert a[0] == b[0];
      var w := |Word(a[0])|;
      if |a| > 1 && |b| > 1 {
        assert Join(a)[w + 1..] == Join(a[1..]);
        assert Join(b)[w + 1..] == Join(b[1..]);
        JoinInjective(a[1..], b[1..]);
        assert a == [a[0]] + a[1..];
        assert b == [b[0]] + b[1..];
      } else {
        assert |Join(a)| == |Join(b)|;
      }
    }
  }

  /** The table as a map from joined input vector to output; a later row overwrites an earlier one. */
  function ToMap(t: seq<Row>): (m: map<string, seq<bool>>)
    ensures m.Keys == set k | 0 <= k < |t| :: Join(t[k].params)
  {
    if t == [] then map[]
    else
      var m := ToMap(t[..|t| - 1]);
      assert forall k :: 0 <= k < |t| - 1 ==> t[..|t| - 1][k] == t[k];
      m[Join(t[|t| - 1].params) := t[|t| - 1].output]
  }

  /**
   * isSameTruthTable, as a predicate: equal row counts, and every input vector
   * of a is a row of b with the same (joined) output.
   */
  ghost predicate SameTables(a: seq<Row>, b: seq<Row>) {
    |a| == |b| &&
    forall key :: key in ToMap(a) ==> key in ToMap(b) && Join(ToMap(a)[key]) == Join(ToMap(b)[key])
  }

  /** isSameTruthTable: compares two tables through their joined-key maps. */
  method IsSameTruthTable(a: seq<Row>, b: seq<Row>) returns (same: bool)
    ensures same == SameTables(a, b)
  {
    if |a| != |b| {
      return false;
    }
    var aMap := ToMap(a);
    var bMap := ToMap(b);
    var keys := aMap.Keys;
    while keys != {}
      invariant keys <= aMap.Keys
      invariant forall key :: key in aMap && key !in keys ==> key in bMap && Join(aMap[key]) == Join(bMap[key])
      decreases |keys|
    {
      var key :| key in keys;
      if key in bMap {
        var aOutput := Join(aMap[key]);
        var bOutput := Join(bMap[key]);
        if aOutput != bOutput {
          return false;
        }
      } else {
        return false;
      }
      keys := keys - {key};
    }
    return true;
  }

  /** Rows that share an input vector share an output. */
  ghost predicate Consistent(t: seq<Row>) {
    forall i, j :: 0 <= i < |t| && 0 <= j < |t| && t[i].params == t[j].params ==> t[i].output == t[j].output
  }

  /** No input vector is listed twice. */
  ghost predicate Distinct(t: seq<Row>) {
    forall i, j :: 0 <= i < j < |t| ==> t[i].params != t[j].params
  }

  /** In a consistent table, the map holds every row's own output. */
  lemma {:induction false} ToMapLookup(t: seq<Row>, i: nat)
    requires Consistent(t) && i < |t|
    ensures ToMap(t)[Join(t[i].params)] == t[i].output
  {
    var init := t[..|t| - 1];
    var last := t[|t| - 1];
    if Join(last.params) != Join(t[i].params) {
      assert i < |t| - 1 && init[i] == t[i];
      assert Consistent(init) by {
        forall x, y | 0 <= x < |init| && 0 <= y < |init| && init[x].params == init[y].params
          ensures init[x].output == init[y].output
        {
          assert init[x] == t[x] && init[y] == t[y];
        }
      }
      ToMapLookup(init, i);
    } else {
      JoinInjective(last.params, t[i].params);
    }
  }

  /** The row of b listing the same input vector and output as row r. */
  ghost predicate Lists(b: seq<Row>, r: Row) {
    exists j :: 0 <= j < |b| && b[j] == r
  }

  /**
   * On consistent tables, isSameTruthTable holds exactly when the tables have
   * equally many rows and every row of a is a row of b.
   */
  lemma SameTablesMeaning(a: seq<Row>, b: seq<Row>)
    requires Consistent(a) && Consistent(b)
    ensures SameTables(a, b) <==> |a| == |b| && forall i :: 0 <= i < |a| ==> Lists(b, a[i])
  {
    if SameTables(a, b) {
      forall i | 0 <= i < |a|
        ensures Lists(b, a[i])
      {
        var key := Join(a[i].params);
        assert key in ToMap(a);
        var j :| 0 <= j < |b| && Join(b[j].params) == key;
        JoinInjective(b[j].params, a[i].params);
        ToMapLookup(a, i);
        ToMapLookup(b, j);
        JoinInjective(ToMap(a)[key], ToMap(b)[key]);
      }
    }
    if |a| == |b| && forall i :: 0 <= i < |a| ==> Lists(b, a[i]) {
      forall key | key in ToMap(a)
        ensures key in ToMap(b) && Join(ToMap(a)[key]) == Join(ToMap(b)[key])
      {
        var i :| 0 <= i < |a| && Join(a[i].params) == key;
        var j :| 0 <= j < |b| && b[j] == a[i];
        ToMapLookup(a, i);
        ToMapLookup(b, j);
      }
    }
  }

  /** Two tables with the same rows, counted with multiplicity, list the same rows. */
  lemma SameRowsListed(t: seq<Row>, reordered: seq<Row>, r: Row)
    requires multiset(t) == multiset(reordered)
    ensures |t| == |reordered|
    ensures Lists(t, r) <==> Lists(reordered, r)
  {
    assert |t| == |multiset(t)| == |reordered|;
    assert r in t <==> r in multiset(t);
    assert r in reordered <==> r in multiset(reordered);
    if Lists(t, r) {
      var j :| 0 <= j < |t| && t[j] == r;
      assert r in t;
    }
    if Lists(reordered, r) {
      var j :| 0 <= j < |reordered| && reordered[j] == r;
      assert r in reordered;
    }
    if r in t {
      var j :| 0 <= j < |t| && t[j] == r;
    }
    if r in reordered {
      var j :| 0 <= j < |reordered| && reordered[j] == r;
    }
  }

  /**
   * isSameTruthTable does not depend on the order of the rows of either
   * consistent table: reordering a or b leaves the verdict unchanged.
   */
  lemma SameTablesIgnoresOrder(a: seq<Row>, a2: seq<Row>, b: seq<Row>, b2: seq<Row>)
    requires Consistent(a) && Consistent(a2) && Consistent(b) && Consistent(b2)
    requires multiset(a) == multiset(a2) && multiset(b) == multiset(b2)
    ensures SameTables(a, b) == SameTables(a2, b2)
  {
    SameTablesMeaning(a, b);
    SameTablesMeaning(a2, b2);
    assert |a| == |multiset(a)| == |a2|;
    assert |b| == |multiset(b)| == |b2|;
    forall r ensures Lists(a, r) <==> Lists(a2, r) {
      SameRowsListed(a, a2, r);
    }
    forall r ensures Lists(b, r) <==> Lists(b2, r) {
      SameRowsListed(b, b2, r);
    }
    if SameTables(a, b) {
      forall i | 0 <= i < |a2|
        ensures Lists(b2, a2[i])
      {
        assert Lists(a2, a2[i]);
        var j :| 0 <= j < |a| && a[j] == a2[i];
      }
    }
    if SameTables(a2, b2) {
      forall i | 0 <= i < |a|
        ensures Lists(b, a[i])
      {
        assert Lists(a, a[i]);
        var j :| 0 <= j < |a2| && a2[j] == a[i];
      }
    }
  }

  /** The rows of a table with no repeated input vector are as many as its length. */
  lemma {:induction false} DistinctRowCount(t: seq<Row>)
    requires Distinct(t)
    ensures |set k | 0 <= k < |t| :: t[k]| == |t|
  {
    if t != [] {
      var init := t[..|t| - 1];
      assert Distinct(init) by {
        assert forall k :: 0 <= k < |init| ==> init[k] == t[k];
      }
      DistinctRowCount(init);
      var s := set k | 0 <= k < |t| :: t[k];
      var s0 := set k | 0 <= k < |init| :: init[k];
      assert s == s0 + {t[|t| - 1]} by {
        assert forall k :: 0 <= k < |init| ==> init[k] == t[k];
      }
      assert t[|t| - 1] !in s0;
    }
  }

  /** On tables without repeated input vectors, isSameTruthTable is symmetric. */
  lemma SameTablesSymmetric(a: seq<Row>, b: seq<Row>)
    requires Distinct(a) && Distinct(b)
    requires SameTables(a, b)
    ensures SameTables(b, a)
  {
    assert Consistent(a) && Consistent(b);
    SameTablesMeaning(a, b);
    SameTablesMeaning(b, a);
    var sa := set k | 0 <= k < |a| :: a[k];
    var sb := set k | 0 <= k < |b| :: b[k];
    DistinctRowCount(a);
    DistinctRowCount(b);
    assert sa <= sb;
    assert sb == sa + (sb - sa);
    assert sa == sb;
    forall j | 0 <= j < |b|
      ensures Lists(a, b[j])
    {
      assert b[j] in sb;
    }
  }

  /** A computed table never repeats an input vector. */
  lemma ComputedTableDistinct(c: Component, fuel: nat)
    requires ComputeTruthTable(c, fuel).Ok?
    ensures Distinct(ComputeTruthTable(c, fuel).value)
  {
    var rows := ComputeTruthTable(c, fuel).value;
    forall i, j | 0 <= i < j < |rows|
      ensures rows[i].params != rows[j].params
    {
      BigEndianInjective(i, j, c.operatorInputs);
    }
  }

  /**
   * With a repeated input vector the comparison is one-sided: a table listing
   * one row twice matches a table adding a second row, but not the other way round.
   */
  lemma RepeatedRowsAsymmetric()
    ensures var a := [Row([false], [false]), Row([false], [false])];
      var b := [Row([false], [false]), Row([true], [true])];
      SameTables(a, b) && !SameTables(b, a)
  {
    var a := [Row([false], [false]), Row([false], [false])];
    var b := [Row([false], [false]), Row([true], [true])];
    assert Join([false]) == "false" && Join([true]) == "true";
    assert ToMap(a) == map["false" := [false]];
    assert ToMap(b) == map["false" := [false], "true" := [true]];
    assert "true" in ToMap(b) && "true" !in ToMap(a);
  }

  /** The maps of two-row tables: the second row is written last. */
  lemma TwoRowMap(r0: Row, r1: Row)
    ensures ToMap([r0, r1]) == map[Join(r0.params) := r0.output][Join(r1.params) := r1.output]
  {
    assert [r0, r1][..1] == [r0] && [r0][..0] == [];
  }

  /**
   * Without consistency the verdict depends on the order of the rows: when an
   * input vector repeats with different outputs, the later row is the one the
   * map keeps.
   */
  lemma InconsistentRowsOrderMatters()
    ensures var a := [Row([false], [false]), Row([false], [true])];
      var a2 := [Row([false], [true]), Row([false], [false])];
      var b := [Row([false], [true]), Row([true], [true])];
      multiset(a) == multiset(a2) && SameTables(a, b) && !SameTables(a2, b)
  {
    var lo, hi, top := Row([false], [false]), Row([false], [true]), Row([true], [true]);
    assert multiset([lo, hi]) == multiset([hi, lo]) by {
      assert [lo, hi] == [lo] + [hi] && [hi, lo] == [hi] + [lo];
    }
    assert Join([false]) == "false" && Join([true]) == "true";
    TwoRowMap(hi, top);
    assert SameTables([lo, hi], [hi, top]) by {
      TwoRowMap(lo, hi);
    }
    assert !SameTables([hi, lo], [hi, top]) by {
      TwoRowMap(hi, lo);
      assert "false" in ToMap([hi, lo]) && Join(ToMap([hi, lo])["false"]) != Join(ToMap([hi, top])["false"]);
    }
  }
}
