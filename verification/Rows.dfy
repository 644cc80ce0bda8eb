/** The stored quarter-hour row and the import of one day block into the rows in memory
    (model/sourcemodel.go, utils/counterpoint.go, store/importFunctions.go). */
module Rows {
  import opened Calendar
  import opened Seqs

  datatype MeterCode = Gen | GenTF | Plus | PlusTF | Con | ConTF | Share | Cover | CoverTF | Other
  datatype Direction = Consumer | Producer

  /** One quarter-hour value of a message; quality is the level of its method string, 0 to 3. */
  datatype Value = Value(from: int, to: int, quality: int, kwh: real)
  datatype CodeData = CodeData(code: MeterCode, values: seq<Value>)
  datatype Energy = Energy(start: int, end: int, data: seq<CodeData>)

  /** All metering points of the community share the arrays of a row: consumer i owns the slots
      3i to 3i+2, producer i the slots 2i and 2i+1. */
  datatype Row = Row(cons: seq<real>, prod: seq<real>, qcons: seq<int>, qprod: seq<int>)
  type Lines = map<RowId, Row>

  /** A meter code picked for import: the entry of the block and the slot in the meter's group. */
  datatype Pick = Pick(source: nat, delta: nat)

  // ----- arrays -----

  function Resize<T>(s: seq<T>, n: nat, zero: T): (r: seq<T>)
    ensures |r| == n
    ensures forall i :: 0 <= i < n ==> r[i] == if i < |s| then s[i] else zero
  {
    seq(n, i requires 0 <= i < n => if i < |s| then s[i] else zero)
  }

  /** Insert and InsertInt: write at k, growing the array to k + 1 when it is shorter. */
  function Put<T>(s: seq<T>, k: nat, v: T, zero: T): (r: seq<T>)
    ensures |r| == if k < |s| then |s| else k + 1
    ensures r[k] == v
    ensures forall i :: 0 <= i < |r| && i != k ==> r[i] == if i < |s| then s[i] else zero
  {
    (if k < |s| then s else Resize(s, k + 1, zero))[k := v]
  }

  /** Reading a slot: a missing entry counts as zero. */
  function At<T>(s: seq<T>, k: nat, zero: T): T {
    if k < |s| then s[k] else zero
  }

  // ----- rows -----

  /** MakeRawSourceLine: the producer quality array gets the consumer size. */
  function MakeRow(consumers: nat, producers: nat): Row {
    Row(seq(consumers, _ => 0.0), seq(producers, _ => 0.0), seq(consumers, _ => 0), seq(consumers, _ => 0))
  }

  /** RawSourceLine.Copy: reading a row back gives quality arrays as long as the value arrays. */
  function Copy(r: Row): Row {
    r.(qcons := Resize(r.qcons, |r.cons|, 0), qprod := Resize(r.qprod, |r.prod|, 0))
  }

  predicate Even(r: Row) {
    |r.qcons| == |r.cons| && |r.qprod| == |r.prod|
  }

  lemma CopyEven(r: Row)
    ensures Even(Copy(r))
    ensures Even(r) ==> Copy(r) == r
    ensures Copy(Copy(r)) == Copy(r)
  {
    if Even(r) {
      assert Copy(r).qcons == r.qcons && Copy(r).qprod == r.qprod;
    }
    assert Copy(Copy(r)).qcons == Copy(r).qcons && Copy(Copy(r)).qprod == Copy(r).qprod;
  }

  function Slot(dir: Direction, idx: nat, delta: nat): nat {
    match dir
    case Consumer => idx * 3 + delta
    case Producer => idx * 2 + delta
  }

  function Values(r: Row, dir: Direction): seq<real> {
    if dir == Consumer then r.cons else r.prod
  }

  function Quality(r: Row, dir: Direction): seq<int> {
    if dir == Consumer then r.qcons else r.qprod
  }

  /** addEnergyValueToResource: the first value of a row id overwrites the slot and its quality. */
  function Assign(r: Row, dir: Direction, k: nat, v: Value): Row {
    match dir
    case Consumer => r.(cons := Put(r.cons, k, v.kwh, 0.0), qcons := Put(r.qcons, k, v.quality, 0))
    case Producer => r.(prod := Put(r.prod, k, v.kwh, 0.0), qprod := Put(r.qprod, k, v.quality, 0))
  }

  /** sumEnergyValueToResource: a repeated row id (the autumn hour) adds to the slot. */
  function Accumulate(r: Row, dir: Direction, k: nat, v: Value): Row
    requires k < |Values(r, dir)|
  {
    match dir
    case Consumer => r.(cons := r.cons[k := r.cons[k] + v.kwh])
    case Producer => r.(prod := r.prod[k := r.prod[k] + v.kwh])
  }

  // ----- meter codes -----

  /** ExamineDirection. */
  function DirectionOf(data: seq<CodeData>): Direction {
    if exists i :: 0 <= i < |data| && data[i].code in {Plus, PlusTF, Gen, GenTF} then Producer else Consumer
  }

  /** DecodeMeterCode: the slot of a code in its meter's group. */
  function Delta(code: MeterCode): Option<nat> {
    match code
    case Gen | GenTF | Con | ConTF => Some(0)
    case Plus | PlusTF | Share => Some(1)
    case Cover | CoverTF => Some(2)
    case Other => None
  }

  predicate Extended(code: MeterCode) {
    code in {ConTF, GenTF, CoverTF, PlusTF}
  }

  /** p names an entry of data with a stored code, and that code's slot. */
  predicate Stored(data: seq<CodeData>, p: Pick) {
    && p.source < |data|
    && Delta(data[p.source].code) == Some(p.delta)
    && data[p.source].code != CoverTF
  }

  /** The entries of data picked for import, plain codes only or extended codes only. */
  function Picks(data: seq<CodeData>, extended: bool): (picks: seq<Pick>)
    ensures forall p :: p in picks ==> Stored(data, p)
  {
    if data == [] then []
    else
      var i := |data| - 1;
      var c := data[i].code;
      Picks(data[..i], extended) +
      if Delta(c).None? || c == CoverTF || Extended(c) != extended then [] else [Pick(i, Delta(c).value)]
  }

  /** organizeMetaCodeImport: plain codes first, then the participation-factor codes, which
      therefore win over the plain ones; G.03R is not stored. */
  function Organize(data: seq<CodeData>): (picks: seq<Pick>)
    ensures forall p :: p in picks ==> Stored(data, p)
  {
    Picks(data, false) + Picks(data, true)
  }

  /** The code of entry i is stored: known, and not G.03R. */
  predicate IsStored(data: seq<CodeData>, i: nat) {
    i < |data| && Delta(data[i].code).Some? && data[i].code != CoverTF
  }

  ghost predicate Picked(picks: seq<Pick>, i: nat) {
    exists k :: 0 <= k < |picks| && picks[k].source == i
  }

  lemma PickedConcat(a: seq<Pick>, b: seq<Pick>, i: nat)
    ensures Picked(a + b, i) <==> Picked(a, i) || Picked(b, i)
  {
    if Picked(a, i) {
      var k :| 0 <= k < |a| && a[k].source == i;
      assert (a + b)[k] == a[k];
    }
    if Picked(b, i) {
      var k :| 0 <= k < |b| && b[k].source == i;
      assert (a + b)[|a| + k] == b[k];
    }
  }

  ghost predicate InMessageOrder(picks: seq<Pick>) {
    forall a, b :: 0 <= a < b < |picks| ==> picks[a].source < picks[b].source
  }

  /** The picks of one kind stand in the order of the message. */
  lemma {:induction false} PicksInOrder(data: seq<CodeData>, extended: bool)
    ensures InMessageOrder(Picks(data, extended))
  {
    if data != [] {
      var n := |data| - 1;
      var init := Picks(data[..n], extended);
      PicksInOrder(data[..n], extended);
      forall k | 0 <= k < |init| ensures init[k].source < n {
        assert init[k] in init;
        assert Stored(data[..n], init[k]);
      }
    }
  }

  /** The picks of one kind are its stored entries. */
  lemma {:induction false} PicksAre(data: seq<CodeData>, extended: bool, i: nat)
    ensures Picked(Picks(data, extended), i) <==> IsStored(data, i) && Extended(data[i].code) == extended
  {
    if data != [] {
      var n := |data| - 1;
      var init := Picks(data[..n], extended);
      PicksAre(data[..n], extended, i);
      if IsStored(data, n) && Extended(data[n].code) == extended {
        var last := [Pick(n, Delta(data[n].code).value)];
        PickedConcat(init, last, i);
        OnePicked(last[0], i);
      } else {
        assert init + [] == init;
      }
    }
  }

  lemma OnePicked(p: Pick, i: nat)
    ensures Picked([p], i) <==> p.source == i
  {
    assert [p][0] == p;
  }

  /** The source entry of a pick is of the kind. */
  lemma PickKind(data: seq<CodeData>, extended: bool, k: nat)
    requires k < |Picks(data, extended)|
    ensures IsStored(data, Picks(data, extended)[k].source) && Extended(data[Picks(data, extended)[k].source].code) == extended
  {
    var i := Picks(data, extended)[k].source;
    assert Picked(Picks(data, extended), i);
    PicksAre(data, extended, i);
  }

  /** Every entry with a stored code is imported. */
  lemma OrganizeAll(data: seq<CodeData>, i: nat)
    ensures Picked(Organize(data), i) <==> IsStored(data, i)
  {
    PicksAre(data, false, i);
    PicksAre(data, true, i);
    PickedConcat(Picks(data, false), Picks(data, true), i);
  }

  /** No entry is imported twice; participation-factor codes come after all plain ones, so that they
      win, and within a kind the later entry comes later. */
  lemma OrganizeOrder(data: seq<CodeData>, a: nat, b: nat)
    requires a < b < |Organize(data)|
    ensures var p, q := Organize(data)[a].source, Organize(data)[b].source;
            p < |data| && q < |data| && p != q && (Extended(data[p].code) ==> Extended(data[q].code)) && (Extended(data[p].code) == Extended(data[q].code) ==> p < q)
  {
    var m := |Picks(data, false)|;
    PicksInOrder(data, false);
    PicksInOrder(data, true);
    if b < m {
      PickKind(data, false, a);
      PickKind(data, false, b);
    } else {
      PickKind(data, true, b - m);
      if a < m {
        PickKind(data, false, a);
      } else {
        PickKind(data, true, a - m);
      }
    }
  }

  // ----- order of the values -----

  function Second(v: Value): int {
    v.from / 1000
  }

  function InsertSorted(v: Value, s: seq<Value>): seq<Value> {
    if s == [] || Second(v) <= Second(s[0]) then [v] + s else [s[0]] + InsertSorted(v, s[1..])
  }

  /** The values of one code by ascending start second. */
  function Sorted(s: seq<Value>): seq<Value> {
    if s == [] then [] else InsertSorted(s[0], Sorted(s[1..]))
  }

  ghost predicate Ascending(s: seq<Value>) {
    forall i, j :: 0 <= i < j < |s| ==> Second(s[i]) <= Second(s[j])
  }

  ghost predicate Distinct(s: seq<Value>) {
    forall i, j :: 0 <= i < j < |s| ==> Second(s[i]) != Second(s[j])
  }

  lemma {:induction false} InsertSortedBag(v: Value, s: seq<Value>)
    ensures multiset(InsertSorted(v, s)) == multiset(s) + multiset{v}
  {
    if s != [] {
      assert s == [s[0]] + s[1..];
    }
    if s != [] && Second(v) > Second(s[0]) {
      InsertSortedBag(v, s[1..]);
    }
  }

  lemma {:induction false} InsertSortedAscends(v: Value, s: seq<Value>)
    requires Ascending(s)
    ensures Ascending(InsertSorted(v, s))
  {
    if s != [] && Second(v) > Second(s[0]) {
      InsertSortedAscends(v, s[1..]);
      InsertSortedBag(v, s[1..]);
      var t := InsertSorted(v, s[1..]);
      forall j | 0 <= j < |t| ensures Second(s[0]) <= Second(t[j]) {
        assert t[j] in multiset(t);
        assert t[j] in s[1..] || t[j] == v;
      }
    }
  }

  lemma {:induction false} SortedIsSort(s: seq<Value>)
    ensures multiset(Sorted(s)) == multiset(s)
    ensures Ascending(Sorted(s))
  {
    if s != [] {
      SortedIsSort(s[1..]);
      InsertSortedBag(s[0], Sorted(s[1..]));
      InsertSortedAscends(s[0], Sorted(s[1..]));
      HeadTail(s);
    }
  }

  lemma TailAscends(s: seq<Value>)
    requires s != []
    ensures Ascending(s) ==> Ascending(s[1..])
    ensures Distinct(s) ==> Distinct(s[1..])
    ensures multiset(s[1..]) == multiset(s) - multiset{s[0]}
  {
    assert s == [s[0]] + s[1..];
  }

  lemma SameHead(s: seq<Value>, t: seq<Value>)
    requires Ascending(s) && Ascending(t) && multiset(s) == multiset(t) && s != []
    requires Distinct(s)
    ensures t != [] && s[0] == t[0]
  {
    assert |multiset(s)| == |multiset(t)|;
    assert t[0] in multiset(s);
    var j :| 0 <= j < |s| && s[j] == t[0];
    assert s[0] in multiset(t);
    var i :| 0 <= i < |t| && t[i] == s[0];
    assert Second(t[0]) <= Second(t[i]);
  }

  /** Two ascending arrangements of values with distinct start seconds are the same, so the
      unstable sort of the source has only this result. */
  lemma {:induction false} SortIsUnique(s: seq<Value>, t: seq<Value>)
    requires Ascending(s) && Ascending(t) && multiset(s) == multiset(t)
    requires Distinct(s)
    ensures s == t
  {
    if s == [] {
      assert |multiset(t)| == 0;
    } else {
      SameHead(s, t);
      TailAscends(s);
      TailAscends(t);
      SortIsUnique(s[1..], t[1..]);
      assert s == [s[0]] + s[1..] && t == [t[0]] + t[1..];
    }
  }

  // ----- import of a block into the rows in memory -----

  /** The rows of seen hold slot k, so a repeated row id can be summed. */
  ghost predicate Covered(lines: Lines, seen: set<RowId>, dir: Direction, k: nat) {
    forall id :: id in seen ==> id in lines && k < |Values(lines[id], dir)|
  }

  /** One value: the row is created on demand, then assigned or accumulated. */
  function ImportValue(z: Zone, lines: Lines, v: Value, seen: set<RowId>, dir: Direction, k: nat, c: nat, p: nat): (r: Lines)
    requires Covered(lines, seen, dir, k)
    ensures Covered(r, seen + {z.Row(v.from)}, dir, k)
    ensures r.Keys == lines.Keys + {z.Row(v.from)}
  {
    var id := z.Row(v.from);
    var row := if id in lines then lines[id] else MakeRow(c, p);
    lines[id := if id in seen then Accumulate(row, dir, k, v) else Assign(row, dir, k, v)]
  }

  function ImportValues(z: Zone, lines: Lines, vals: seq<Value>, seen: set<RowId>, dir: Direction, k: nat, c: nat, p: nat): Lines
    requires Covered(lines, seen, dir, k)
    decreases |vals|
  {
    if vals == [] then lines
    else
      ImportValues(z, ImportValue(z, lines, vals[0], seen, dir, k, c, p), vals[1..], seen + {z.Row(vals[0].from)}, dir, k, c, p)
  }

  function ImportPick(z: Zone, lines: Lines, data: seq<CodeData>, pick: Pick, dir: Direction, idx: nat, c: nat, p: nat): Lines
    requires pick.source < |data|
  {
    ImportValues(z, lines, Sorted(data[pick.source].values), {}, dir, Slot(dir, idx, pick.delta), c, p)
  }

  /** importEnergyValuesV2: every picked code in turn. New rows get c consumer and p producer slots. */
  function ImportCodes(z: Zone, lines: Lines, data: seq<CodeData>, picks: seq<Pick>, dir: Direction, idx: nat, c: nat, p: nat): Lines
    requires forall q :: q in picks ==> q.source < |data|
    decreases |picks|
  {
    if picks == [] then lines
    else ImportCodes(z, ImportPick(z, lines, data, picks[0], dir, idx, c, p), data, picks[1..], dir, idx, c, p)
  }
}
