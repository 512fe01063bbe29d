/**
 * The chart aggregation `chartData`, written identically in
 * client/src/components/dashboard/Dashboard.js and client/src/App.js: a
 * `reduce` over the bill list into a dictionary from customer name to the sum
 * of that name's parsed amounts, whose values are then listed.
 *
 * The dictionary is modelled as a map, because `Object.values` does not list
 * entries in first-seen order (integer-like names such as "42" come first, in
 * ascending numeric order); no property here is about that order.
 */
module Chart {
  import opened Records

  /** The `{ name, amount }` pair the reducer forms for one bill, the amount
      being `parseFloat(bill.amount) || 0`. */
  datatype ChartPoint = ChartPoint(name: string, amount: int)

  function ToPoint(b: Bill): ChartPoint
  {
    ChartPoint(b.name, ParseAmount(b.amount))
  }

  function Points(bills: seq<Bill>): (ps: seq<ChartPoint>)
    ensures |ps| == |bills| && forall i :: 0 <= i < |bills| ==> ps[i] == ToPoint(bills[i])
  {
    seq(|bills|, i requires 0 <= i < |bills| => ToPoint(bills[i]))
  }

  /** The distinct names among the points. */
  function Names(ps: seq<ChartPoint>): set<string>
  {
    if ps == [] then {} else Names(ps[..|ps| - 1]) + {ps[|ps| - 1].name}
  }

  /** The sum of the amounts of the points named `name`. */
  function SumFor(ps: seq<ChartPoint>, name: string): int
  {
    if ps == [] then 0
    else SumFor(ps[..|ps| - 1], name) + (if ps[|ps| - 1].name == name then ps[|ps| - 1].amount else 0)
  }

  /** The sum of all amounts. */
  function Total(ps: seq<ChartPoint>): int
  {
    if ps == [] then 0 else Total(ps[..|ps| - 1]) + ps[|ps| - 1].amount
  }

  lemma NamesSnoc(ps: seq<ChartPoint>, p: ChartPoint)
    ensures Names(ps + [p]) == Names(ps) + {p.name}
  {
    assert (ps + [p])[..|ps|] == ps;
  }

  /** A name is in `Names` iff some point carries it. */
  lemma {:induction false} NamesMeaning(ps: seq<ChartPoint>, name: string)
    ensures name in Names(ps) <==> exists i :: 0 <= i < |ps| && ps[i].name == name
  {
    if ps != [] {
      var q := ps[..|ps| - 1];
      NamesMeaning(q, name);
      if name in Names(q) {
        var i :| 0 <= i < |q| && q[i].name == name;
        assert ps[i].name == name;
      }
      if exists i :: 0 <= i < |ps| && ps[i].name == name {
        var i :| 0 <= i < |ps| && ps[i].name == name;
        if i < |q| { assert q[i].name == name; }
      }
    }
  }

  /** A name that no point carries sums to 0. */
  lemma {:induction false} SumForAbsent(ps: seq<ChartPoint>, name: string)
    requires name !in Names(ps)
    ensures SumFor(ps, name) == 0
  {
    if ps != [] {
      SumForAbsent(ps[..|ps| - 1], name);
    }
  }

  /** The chart the reducer builds: the points folded one by one into a map
      from name to running sum. */
  function Totals(ps: seq<ChartPoint>): map<string, int>
  {
    if ps == [] then map[]
    else
      var t, p := Totals(ps[..|ps| - 1]), ps[|ps| - 1];
      t[p.name := (if p.name in t then t[p.name] else 0) + p.amount]
  }

  /** The chart has one entry per distinct name, carrying the sum of that
      name's amounts. */
  lemma {:induction false} TotalsMeaning(ps: seq<ChartPoint>)
    ensures Totals(ps).Keys == Names(ps)
    ensures forall name :: name in Totals(ps) ==> Totals(ps)[name] == SumFor(ps, name)
  {
    if ps != [] {
      var q, p := ps[..|ps| - 1], ps[|ps| - 1];
      TotalsMeaning(q);
      if p.name !in Totals(q) {
        SumForAbsent(q, p.name);
      }
    }
  }

  /** Folding one more point into the chart adds its amount to its own
      name's entry, creating the entry when the name is new. */
  lemma TotalsSnoc(ps: seq<ChartPoint>, p: ChartPoint)
    ensures Totals(ps + [p]) ==
      Totals(ps)[p.name := (if p.name in Totals(ps) then Totals(ps)[p.name] else 0) + p.amount]
  {
    assert (ps + [p])[..|ps|] == ps;
  }

  /** `TotalsSnoc` on a prefix of the points. */
  lemma TotalsPrefixStep(ps: seq<ChartPoint>, i: nat)
    requires i < |ps|
    ensures var t, p := Totals(ps[..i]), ps[i];
      Totals(ps[..i + 1]) == t[p.name := (if p.name in t then t[p.name] else 0) + p.amount]
  {
    assert ps[..i + 1] == ps[..i] + [ps[i]];
    TotalsSnoc(ps[..i], ps[i]);
  }

  /** `bills.reduce((acc, bill) => ..., {})`: a single pass that adds each
      bill's parsed amount to its name's running sum. */
  method ChartData(bills: seq<Bill>) returns (acc: map<string, int>)
    ensures acc == Totals(Points(bills))
  {
    ghost var ps := Points(bills);
    acc := map[];
    var i := 0;
    while i < |bills|
      invariant 0 <= i <= |bills|
      invariant acc == Totals(ps[..i])
    {
      var point := ToPoint(bills[i]);
      assert point == ps[i];
      TotalsPrefixStep(ps, i);
      acc := acc[point.name := (if point.name in acc then acc[point.name] else 0) + point.amount];
      i := i + 1;
    }
    assert ps[..i] == ps;
  }

  /** The sum of the values of a chart. */
  ghost function MapTotal(m: map<string, int>): int
    decreases |m|
  {
    if m == map[] then 0
    else
      var k :| k in m;
      assert |m - {k}| < |m| by { assert (m - {k}).Keys == m.Keys - {k}; }
      m[k] + MapTotal(m - {k})
  }

  lemma {:induction false} MapTotalRemove(m: map<string, int>, k: string)
    requires k in m
    ensures MapTotal(m) == m[k] + MapTotal(m - {k})
    decreases |m|
  {
    var j :| j in m && MapTotal(m) == m[j] + MapTotal(m - {j});
    if j != k {
      assert (m - {j}).Keys == m.Keys - {j};
      assert (m - {k}).Keys == m.Keys - {k};
      MapTotalRemove(m - {j}, k);
      MapTotalRemove(m - {k}, j);
      assert m - {j} - {k} == m - {k} - {j};
    }
  }

  lemma {:induction false} MapTotalUpdate(m: map<string, int>, k: string, v: int)
    ensures MapTotal(m[k := v]) == MapTotal(m) - (if k in m then m[k] else 0) + v
  {
    MapTotalRemove(m[k := v], k);
    assert m[k := v] - {k} == m - {k};
    if k in m {
      MapTotalRemove(m, k);
    } else {
      assert m - {k} == m;
    }
  }

  /** The chart's amounts add up to the amounts of all the bills. */
  lemma {:induction false} TotalPreserved(ps: seq<ChartPoint>)
    ensures MapTotal(Totals(ps)) == Total(ps)
  {
    if ps == [] {
      assert Totals(ps) == map[];
    } else {
      var q, p := ps[..|ps| - 1], ps[|ps| - 1];
      assert ps == q + [p];
      TotalPreserved(q);
      TotalsSnoc(q, p);
      MapTotalUpdate(Totals(q), p.name, (if p.name in Totals(q) then Totals(q)[p.name] else 0) + p.amount);
    }
  }

  /** No bills, no chart entries. */
  lemma EmptyChart()
    ensures Totals(Points([])) == map[] && MapTotal(Totals(Points([]))) == 0
  {
    assert Points([]) == [];
    assert Totals([]) == map[];
  }

  /** Two bills under one name give one entry holding both amounts. */
  lemma SameNameCombines(p: ChartPoint, q: ChartPoint)
    requires p.name == q.name
    ensures Totals([p, q]) == map[p.name := p.amount + q.amount]
  {
    assert [p, q][..1] == [p] && [p][..0] == [];
    assert Totals([p]) == map[p.name := p.amount];
  }

  predicate DistinctNames(ps: seq<ChartPoint>)
  {
    forall i, j :: 0 <= i < j < |ps| ==> ps[i].name != ps[j].name
  }

  /** Aggregating a list that already holds one point per name changes
      nothing: each name's entry is that point's own amount. */
  lemma {:induction false} AggregatingDistinctNamesKeepsAmounts(ps: seq<ChartPoint>)
    requires DistinctNames(ps)
    ensures |Totals(ps)| == |ps|
    ensures forall i :: 0 <= i < |ps| ==> ps[i].name in Totals(ps) && Totals(ps)[ps[i].name] == ps[i].amount
  {
    if ps != [] {
      var q, p := ps[..|ps| - 1], ps[|ps| - 1];
      assert DistinctNames(q);
      AggregatingDistinctNamesKeepsAmounts(q);
      forall i | 0 <= i < |q| ensures q[i].name != p.name {
        assert q[i] == ps[i];
      }
      TotalsMeaning(q);
      NamesMeaning(q, p.name);
      assert p.name !in Totals(q);
      assert Totals(ps).Keys == Totals(q).Keys + {p.name};
      forall i | 0 <= i < |ps| ensures ps[i].name in Totals(ps) && Totals(ps)[ps[i].name] == ps[i].amount {
        if i < |q| {
          assert q[i] == ps[i];
        }
      }
    }
  }

  //
  // The reducer as written.
  //
  // `acc` starts as `{}`, an object that inherits from Object.prototype, and
  // `acc[name]` reads inherited members too. Every member Object.prototype
  // has is a function, hence truthy, and has no `amount`, so the first bill
  // named "constructor" (say) gets `undefined + amount`, NaN. A bill named
  // "__proto__" assigns the accumulator's prototype instead of an entry: it
  // never appears in the chart, and from then on a bill named "name" inherits
  // the string "__proto__" and gets NaN as well.
  //

  /** `name` is one of the members every plain object inherits from Object.prototype
      (section 20.1.3 of ECMAScript 2024 and the accessors of its Annex B.2.2),
      apart from `__proto__`. */
  predicate ObjectPrototypeMember(name: string)
  {
    name in {"constructor", "hasOwnProperty", "isPrototypeOf", "propertyIsEnumerable",
             "toLocaleString", "toString", "valueOf", "__defineGetter__",
             "__defineSetter__", "__lookupGetter__", "__lookupSetter__"}
  }

  /** A JavaScript number restricted to the integers and NaN. */
  datatype JsSum = Finite(value: int) | NotANumber
  {
    function Plus(n: int): JsSum
    {
      match this
      case Finite(v) => Finite(v + n)
      case NotANumber => NotANumber
    }
  }

  /** The accumulator object: its own entries, and whether a "__proto__"
      bill has replaced its prototype. */
  datatype Accumulator = Accumulator(own: map<string, JsSum>, protoReplaced: bool)

  function StepAsWritten(acc: Accumulator, p: ChartPoint): (r: Accumulator)
    ensures p.name != "__proto__" ==> r.protoReplaced == acc.protoReplaced && r.own.Keys == acc.own.Keys + {p.name}
    ensures p.name == "__proto__" ==> r == acc.(protoReplaced := true)
  {
    var name := p.name;
    if name == "__proto__" then
      acc.(protoReplaced := true)
    else if name in acc.own then
      acc.(own := acc.own[name := acc.own[name].Plus(p.amount)])
    else if ObjectPrototypeMember(name) || (acc.protoReplaced && name == "name") then
      acc.(own := acc.own[name := NotANumber])
    else
      acc.(own := acc.own[name := Finite(p.amount)])
  }

  function FoldAsWritten(ps: seq<ChartPoint>): Accumulator
  {
    if ps == [] then Accumulator(map[], false)
    else StepAsWritten(FoldAsWritten(ps[..|ps| - 1]), ps[|ps| - 1])
  }

  /** The entries `Object.values` lists, with the reducer as written. */
  function ChartAsWritten(bills: seq<Bill>): map<string, JsSum>
  {
    FoldAsWritten(Points(bills)).own
  }

  /** A chart's entries as JavaScript numbers. */
  function AsNumbers(m: map<string, int>): map<string, JsSum>
  {
    map name | name in m :: Finite(m[name])
  }

  lemma AsNumbersUpdate(m: map<string, int>, k: string, v: int)
    ensures AsNumbers(m[k := v]) == AsNumbers(m)[k := Finite(v)]
  {
  }

  /** A name that the prototype chain cannot shadow. */
  predicate OrdinaryName(name: string)
  {
    name != "__proto__" && !ObjectPrototypeMember(name)
  }

  /** On points whose names are all ordinary the reducer as written computes
      the intended chart. */
  lemma {:induction false} FoldAsWrittenAgrees(ps: seq<ChartPoint>)
    requires forall i :: 0 <= i < |ps| ==> OrdinaryName(ps[i].name)
    ensures FoldAsWritten(ps) == Accumulator(AsNumbers(Totals(ps)), false)
  {
    if ps == [] {
      assert Totals(ps) == map[];
    } else {
      var q, p := ps[..|ps| - 1], ps[|ps| - 1];
      assert ps == q + [p];
      assert forall i :: 0 <= i < |q| ==> q[i] == ps[i];
      FoldAsWrittenAgrees(q);
      var t := Totals(q);
      AsNumbersUpdate(t, p.name, (if p.name in t then t[p.name] else 0) + p.amount);
    }
  }

  /** On bills whose names are all ordinary the chart as written is the
      intended one. */
  lemma AsWrittenAgreesOnOrdinaryNames(bills: seq<Bill>)
    requires forall i :: 0 <= i < |bills| ==> OrdinaryName(bills[i].name)
    ensures ChartAsWritten(bills) == AsNumbers(Totals(Points(bills)))
  {
    FoldAsWrittenAgrees(Points(bills));
  }

  /** The chart of a single bill, both ways, in terms of its point. */
  lemma {:induction false} OneBillCharts(b: Bill)
    ensures Points([b]) == [ToPoint(b)]
    ensures ChartAsWritten([b]) == StepAsWritten(Accumulator(map[], false), ToPoint(b)).own
    ensures Totals(Points([b])) == map[b.name := ParseAmount(b.amount)]
  {
    var p := ToPoint(b);
    assert Points([b]) == [p];
    assert [p][..0] == [];
    assert FoldAsWritten([p]) == StepAsWritten(FoldAsWritten([]), p);
  }

  /** A customer named "constructor" is charted as NaN instead of its amount. */
  lemma ConstructorIsChartedAsNaN()
    ensures var bills := [Bill(1, "constructor", "9876543210", "c@gmail.com", "5")];
      ChartAsWritten(bills) == map["constructor" := NotANumber]
      && Totals(Points(bills)) == map["constructor" := 5]
  {
    var b := Bill(1, "constructor", "9876543210", "c@gmail.com", "5");
    OneBillCharts(b);
    assert ParseAmount("5") == 5;
    assert ObjectPrototypeMember("constructor");
  }

  /** A customer named "__proto__" is missing from the chart altogether. */
  lemma ProtoNameIsDropped()
    ensures var bills := [Bill(1, "__proto__", "9876543210", "p@gmail.com", "5")];
      ChartAsWritten(bills) == map[] && Totals(Points(bills)) == map["__proto__" := 5]
  {
    var b := Bill(1, "__proto__", "9876543210", "p@gmail.com", "5");
    OneBillCharts(b);
    assert ParseAmount("5") == 5;
  }
}
