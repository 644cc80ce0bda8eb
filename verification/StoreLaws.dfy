/** Laws of the stored cells: what storing a block does to every single value and quality cell, that a
    redelivered block changes nothing, and which cells of other metering points a block can touch. */
module StoreLaws {
  import opened Calendar
  import opened Rows
  import opened Registry
  import opened StoreSpec

  /** The value and quality of one slot of one row. */
  datatype Cell = Cell(kwh: real, quality: int)

  /** A slot as reading the row back shows it; what is missing counts as zero. */
  function RowCell(r: Row, dir: Direction, k: nat): Cell {
    if k < |Values(r, dir)| then Cell(Values(r, dir)[k], At(Quality(r, dir), k, 0)) else Cell(0.0, 0)
  }

  function CellOf(lines: Lines, id: RowId, dir: Direction, k: nat): Cell {
    if id in lines then RowCell(lines[id], dir, k) else Cell(0.0, 0)
  }

  lemma CopyCell(r: Row, dir: Direction, k: nat)
    ensures RowCell(Copy(r), dir, k) == RowCell(r, dir, k)
  {
  }

  lemma FreshCell(c: nat, p: nat, dir: Direction, k: nat)
    ensures RowCell(MakeRow(c, p), dir, k) == Cell(0.0, 0)
  {
  }

  /** No quality is stored beyond the values. */
  predicate Tidy(r: Row) {
    && (forall k :: |r.cons| <= k < |r.qcons| ==> r.qcons[k] == 0)
    && (forall k :: |r.prod| <= k < |r.qprod| ==> r.qprod[k] == 0)
  }

  ghost predicate TidyLines(lines: Lines) {
    forall id :: id in lines ==> Tidy(lines[id])
  }

  lemma AssignCell(r: Row, dir: Direction, k: nat, v: Value, d: Direction, n: nat)
    requires Tidy(r)
    ensures Tidy(Assign(r, dir, k, v))
    ensures RowCell(Assign(r, dir, k, v), d, n) == if d == dir && n == k then Cell(v.kwh, v.quality) else RowCell(r, d, n)
  {
  }

  lemma AccumulateCell(r: Row, dir: Direction, k: nat, v: Value, d: Direction, n: nat)
    requires Tidy(r) && k < |Values(r, dir)|
    ensures Tidy(Accumulate(r, dir, k, v))
    ensures var was := RowCell(r, d, n); RowCell(Accumulate(r, dir, k, v), d, n) == if d == dir && n == k then was.(kwh := was.kwh + v.kwh) else was
  {
  }

  // ----- the values of one code -----

  /** What the values in order do to the slot in row id: the first one there overwrites, the later
      ones (the autumn hour) add. */
  function Effect(z: Zone, vals: seq<Value>, id: RowId, seen: bool, cell: Cell): Cell
    decreases |vals|
  {
    if vals == [] then cell
    else if z.Row(vals[0].from) != id then Effect(z, vals[1..], id, seen, cell)
    else Effect(z, vals[1..], id, true, CellAfter(cell, vals[0], seen))
  }

  ghost predicate Hits(z: Zone, vals: seq<Value>, id: RowId) {
    exists i :: 0 <= i < |vals| && z.Row(vals[i].from) == id
  }

  /** A row without a value keeps its slot; with one, what was there before does not matter. */
  lemma {:induction false} EffectForgets(z: Zone, vals: seq<Value>, id: RowId, a: Cell, b: Cell)
    ensures !Hits(z, vals, id) ==> Effect(z, vals, id, false, a) == a
    ensures Hits(z, vals, id) ==> Effect(z, vals, id, false, a) == Effect(z, vals, id, false, b)
    decreases |vals|
  {
    if vals != [] {
      if z.Row(vals[0].from) != id {
        EffectForgets(z, vals[1..], id, a, b);
        assert forall i :: 0 <= i < |vals| - 1 ==> vals[1..][i] == vals[i + 1];
        if Hits(z, vals, id) {
          var i :| 0 <= i < |vals| && z.Row(vals[i].from) == id;
          assert vals[1..][i - 1] == vals[i];
        }
      } else {
        assert Hits(z, vals, id);
      }
    }
  }

  /** The row a value goes into, after it. */
  function RowAfter(z: Zone, lines: Lines, v: Value, seen: set<RowId>, dir: Direction, k: nat, c: nat, p: nat): Row
    requires Covered(lines, seen, dir, k)
  {
    var id := z.Row(v.from);
    var row := if id in lines then lines[id] else MakeRow(c, p);
    if id in seen then Accumulate(row, dir, k, v) else Assign(row, dir, k, v)
  }

  /** What a value does to a slot. */
  function CellAfter(was: Cell, v: Value, seen: bool): Cell {
    if seen then was.(kwh := was.kwh + v.kwh) else Cell(v.kwh, v.quality)
  }

  lemma RowAfterCell(z: Zone, lines: Lines, v: Value, seen: set<RowId>, dir: Direction, k: nat, c: nat, p: nat, d: Direction, n: nat)
    requires Covered(lines, seen, dir, k) && TidyLines(lines)
    ensures var r := RowAfter(z, lines, v, seen, dir, k, c, p);
            var was := CellOf(lines, z.Row(v.from), d, n);
            Tidy(r) && RowCell(r, d, n) == if d == dir && n == k then CellAfter(was, v, z.Row(v.from) in seen) else was
  {
    var at := z.Row(v.from);
    var row := if at in lines then lines[at] else MakeRow(c, p);
    FreshCell(c, p, d, n);
    if at in seen {
      AccumulateCell(row, dir, k, v, d, n);
    } else {
      AssignCell(row, dir, k, v, d, n);
    }
  }

  lemma ImportValueCell(z: Zone, lines: Lines, v: Value, seen: set<RowId>, dir: Direction, k: nat, c: nat, p: nat, id: RowId, d: Direction, n: nat)
    requires Covered(lines, seen, dir, k) && TidyLines(lines)
    ensures TidyLines(ImportValue(z, lines, v, seen, dir, k, c, p))
    ensures var was := CellOf(lines, id, d, n);
            CellOf(ImportValue(z, lines, v, seen, dir, k, c, p), id, d, n) == if z.Row(v.from) == id && d == dir && n == k then CellAfter(was, v, id in seen) else was
  {
    RowAfterCell(z, lines, v, seen, dir, k, c, p, d, n);
    assert ImportValue(z, lines, v, seen, dir, k, c, p) == lines[z.Row(v.from) := RowAfter(z, lines, v, seen, dir, k, c, p)];
  }

  lemma {:induction false} ImportValuesTidy(z: Zone, lines: Lines, vals: seq<Value>, seen: set<RowId>, dir: Direction, k: nat, c: nat, p: nat)
    requires Covered(lines, seen, dir, k) && TidyLines(lines)
    ensures TidyLines(ImportValues(z, lines, vals, seen, dir, k, c, p))
    decreases |vals|
  {
    if vals != [] {
      ImportValueCell(z, lines, vals[0], seen, dir, k, c, p, z.Row(vals[0].from), dir, k);
      ImportValuesTidy(z, ImportValue(z, lines, vals[0], seen, dir, k, c, p), vals[1..], seen + {z.Row(vals[0].from)}, dir, k, c, p);
    }
  }

  /** Every cell after the values of one code, in terms of the cell before. */
  lemma {:induction false} ImportValuesCell(z: Zone, lines: Lines, vals: seq<Value>, seen: set<RowId>, dir: Direction, k: nat, c: nat, p: nat, id: RowId, d: Direction, n: nat)
    requires Covered(lines, seen, dir, k) && TidyLines(lines)
    ensures CellOf(ImportValues(z, lines, vals, seen, dir, k, c, p), id, d, n) ==
            if d == dir && n == k then Effect(z, vals, id, id in seen, CellOf(lines, id, d, n)) else CellOf(lines, id, d, n)
    decreases |vals|
  {
    if vals != [] {
      var next := ImportValue(z, lines, vals[0], seen, dir, k, c, p);
      var seen' := seen + {z.Row(vals[0].from)};
      ImportValueCell(z, lines, vals[0], seen, dir, k, c, p, id, d, n);
      ImportValuesCell(z, next, vals[1..], seen', dir, k, c, p, id, d, n);
    }
  }

  // ----- all codes of a block -----

  /** What the picked codes in turn do to slot n of direction d in row id. */
  function CodesEffect(z: Zone, data: seq<CodeData>, picks: seq<Pick>, dir: Direction, idx: nat, id: RowId, d: Direction, n: nat, cell: Cell): Cell
    requires forall q :: q in picks ==> q.source < |data|
    decreases |picks|
  {
    if picks == [] then cell
    else
      var next := if d == dir && n == Slot(dir, idx, picks[0].delta) then Effect(z, Sorted(data[picks[0].source].values), id, false, cell) else cell;
      CodesEffect(z, data, picks[1..], dir, idx, id, d, n, next)
  }

  lemma {:induction false} ImportCodesCell(z: Zone, lines: Lines, data: seq<CodeData>, picks: seq<Pick>, dir: Direction, idx: nat, c: nat, p: nat, id: RowId, d: Direction, n: nat)
    requires TidyLines(lines) && forall q :: q in picks ==> q.source < |data|
    ensures CellOf(ImportCodes(z, lines, data, picks, dir, idx, c, p), id, d, n) == CodesEffect(z, data, picks, dir, idx, id, d, n, CellOf(lines, id, d, n))
    decreases |picks|
  {
    if picks != [] {
      ImportValuesCell(z, lines, Sorted(data[picks[0].source].values), {}, dir, Slot(dir, idx, picks[0].delta), c, p, id, d, n);
      ImportValuesTidy(z, lines, Sorted(data[picks[0].source].values), {}, dir, Slot(dir, idx, picks[0].delta), c, p);
      ImportCodesCell(z, ImportPick(z, lines, data, picks[0], dir, idx, c, p), data, picks[1..], dir, idx, c, p, id, d, n);
    }
  }

  /** The picked codes have a value for slot n of direction d in row id. */
  ghost predicate Overwrites(z: Zone, data: seq<CodeData>, picks: seq<Pick>, dir: Direction, idx: nat, id: RowId, d: Direction, n: nat)
    requires forall q :: q in picks ==> q.source < |data|
  {
    d == dir && exists i :: 0 <= i < |picks| && n == Slot(dir, idx, picks[i].delta) && Hits(z, Sorted(data[picks[i].source].values), id)
  }

  /** A block overwrites a cell without regard to what it held, or leaves it alone. */
  lemma {:induction false} CodesForget(z: Zone, data: seq<CodeData>, picks: seq<Pick>, dir: Direction, idx: nat, id: RowId, d: Direction, n: nat, a: Cell, b: Cell)
    requires forall q :: q in picks ==> q.source < |data|
    ensures !Overwrites(z, data, picks, dir, idx, id, d, n) ==> CodesEffect(z, data, picks, dir, idx, id, d, n, a) == a
    ensures Overwrites(z, data, picks, dir, idx, id, d, n) ==> CodesEffect(z, data, picks, dir, idx, id, d, n, a) == CodesEffect(z, data, picks, dir, idx, id, d, n, b)
    decreases |picks|
  {
    if picks != [] {
      var here := d == dir && n == Slot(dir, idx, picks[0].delta);
      var vals := Sorted(data[picks[0].source].values);
      EffectForgets(z, vals, id, a, b);
      var a' := if here then Effect(z, vals, id, false, a) else a;
      var b' := if here then Effect(z, vals, id, false, b) else b;
      CodesForget(z, data, picks[1..], dir, idx, id, d, n, a', b');
      OverwritesTail(z, data, picks, dir, idx, id, d, n);
    }
  }

  lemma OverwritesTail(z: Zone, data: seq<CodeData>, picks: seq<Pick>, dir: Direction, idx: nat, id: RowId, d: Direction, n: nat)
    requires picks != [] && forall q :: q in picks ==> q.source < |data|
    ensures Overwrites(z, data, picks, dir, idx, id, d, n) <==>
            Overwrites(z, data, picks[1..], dir, idx, id, d, n) || (d == dir && n == Slot(dir, idx, picks[0].delta) && Hits(z, Sorted(data[picks[0].source].values), id))
  {
    var rest := picks[1..];
    assert forall i :: 0 <= i < |rest| ==> rest[i] == picks[i + 1];
    if Overwrites(z, data, picks, dir, idx, id, d, n) {
      var i :| 0 <= i < |picks| && n == Slot(dir, idx, picks[i].delta) && Hits(z, Sorted(data[picks[i].source].values), id);
      assert i > 0 ==> rest[i - 1] == picks[i];
    }
  }

  // ----- one block -----

  /** The metering point under which the block is stored. */
  ghost function MeterOf(db: Db, b: Block): Meter {
    Registered(db, b)[b.point]
  }

  ghost predicate BlockHits(z: Zone, m: Meter, b: Block, id: RowId, d: Direction, n: nat) {
    Overwrites(z, b.energy.data, Organize(b.energy.data), m.dir, m.idx, id, d, n)
  }

  /** Every cell of the store after a block. */
  lemma StoreBlockCell(z: Zone, db: Db, b: Block, day: int, id: RowId, d: Direction, n: nat)
    requires OnDay(z, b, day)
    ensures var m := MeterOf(db, b);
            CellOf(StoreBlock(z, db, b).lines, id, d, n) ==
            if id.day == day then CodesEffect(z, b.energy.data, Organize(b.energy.data), m.dir, m.idx, id, d, n, CellOf(db.lines, id, d, n)) else CellOf(db.lines, id, d, n)
  {
    var meta := Registered(db, b);
    var m := meta[b.point];
    var c := if b.counts.Some? then b.counts.value else Info(meta);
    WrittenOnDay(z, db, b, day);
    var fetched := Fetch(db.lines, day, day);
    ImportCodesCell(z, fetched, b.energy.data, Organize(b.energy.data), m.dir, m.idx, c.consumers, c.producers, id, d, n);
    if id in fetched {
      CopyCell(db.lines[id], d, n);
    }
    if id.day == day {
      assert CellOf(fetched, id, d, n) == CellOf(db.lines, id, d, n);
      assert id in db.lines ==> id in fetched;
    }
  }

  lemma MeterStays(z: Zone, db: Db, b: Block)
    ensures var db1 := StoreBlock(z, db, b); Registered(db1, b) == db1.meta && MeterOf(db1, b).dir == MeterOf(db, b).dir && MeterOf(db1, b).idx == MeterOf(db, b).idx
  {
  }

  /** Storing the same block again leaves every value and quality cell and the meta record as they are. */
  lemma Redelivery(z: Zone, db: Db, b: Block, day: int, id: RowId, d: Direction, n: nat)
    requires OnDay(z, b, day)
    ensures var once := StoreBlock(z, db, b);
            var twice := StoreBlock(z, once, b);
            twice.meta == once.meta && CellOf(twice.lines, id, d, n) == CellOf(once.lines, id, d, n)
  {
    var once := StoreBlock(z, db, b);
    var m := MeterOf(db, b);
    MeterStays(z, db, b);
    StoreBlockCell(z, db, b, day, id, d, n);
    StoreBlockCell(z, once, b, day, id, d, n);
    CodesForget(z, b.energy.data, Organize(b.energy.data), m.dir, m.idx, id, d, n, CellOf(once.lines, id, d, n), CellOf(db.lines, id, d, n));
    WidenTwice(z, Registered(db, b)[b.point], b.energy.start, b.energy.end);
  }

  /** The last block for a cell decides it: its content does not depend on the store before. */
  lemma LaterWins(z: Zone, db: Db, other: Db, b: Block, day: int, id: RowId, d: Direction, n: nat)
    requires OnDay(z, b, day) && id.day == day && MeterOf(db, b).dir == MeterOf(other, b).dir && MeterOf(db, b).idx == MeterOf(other, b).idx
    requires BlockHits(z, MeterOf(db, b), b, id, d, n)
    ensures CellOf(StoreBlock(z, db, b).lines, id, d, n) == CellOf(StoreBlock(z, other, b).lines, id, d, n)
  {
    var m := MeterOf(db, b);
    StoreBlockCell(z, db, b, day, id, d, n);
    StoreBlockCell(z, other, b, day, id, d, n);
    CodesForget(z, b.energy.data, Organize(b.energy.data), m.dir, m.idx, id, d, n, CellOf(db.lines, id, d, n), CellOf(other.lines, id, d, n));
  }

  // ----- other metering points -----

  /** Consumer i owns the three slots from 3i, producer i the two from 2i. */
  function Width(dir: Direction): nat {
    if dir == Consumer then 3 else 2
  }

  /** One of the picked codes goes to the third slot (only G.03) and has a value in row id. */
  ghost predicate CoverHits(z: Zone, data: seq<CodeData>, picks: seq<Pick>, id: RowId)
    requires forall q :: q in picks ==> q.source < |data|
  {
    exists i :: 0 <= i < |picks| && picks[i].delta == 2 && Hits(z, Sorted(data[picks[i].source].values), id)
  }

  lemma SlotsApart(dir: Direction, i: nat, a: nat, j: nat, b: nat)
    requires i != j && a <= 2 && b < Width(dir)
    ensures Slot(dir, i, a) == Slot(dir, j, b) <==> dir == Producer && j == i + 1 && a == 2 && b == 0
  {
  }

  /** Exactly which cells of another metering point a block overwrites: only if both are producers, the
      other has the next index, and the block carries G.03, whose slot is the other's first one. */
  lemma TouchesOther(z: Zone, m: Meter, other: Meter, b: Block, id: RowId, delta: nat)
    requires other.dir != m.dir || other.idx != m.idx
    requires delta < Width(other.dir)
    ensures BlockHits(z, m, b, id, other.dir, Slot(other.dir, other.idx, delta)) <==>
            m.dir == Producer && other.dir == Producer && other.idx == m.idx + 1 && delta == 0 && CoverHits(z, b.energy.data, Organize(b.energy.data), id)
  {
    var data := b.energy.data;
    var picks := Organize(data);
    if other.dir == m.dir {
      forall i | 0 <= i < |picks| ensures picks[i].delta <= 2 {
        assert Stored(data, picks[i]);
      }
      forall i | 0 <= i < |picks|
        ensures Slot(m.dir, other.idx, delta) == Slot(m.dir, m.idx, picks[i].delta) <==> m.dir == Producer && other.idx == m.idx + 1 && picks[i].delta == 2 && delta == 0 {
        SlotsApart(m.dir, m.idx, picks[i].delta, other.idx, delta);
      }
    }
  }

  /** The block carries G.03 for a producer. */
  ghost predicate Misfit(db: Db, b: Block) {
    MeterOf(db, b).dir == Producer && exists p :: p in Organize(b.energy.data) && p.delta == 2
  }

  /** A block whose codes fit its metering point changes no cell of any other. */
  lemma NonInterference(z: Zone, db: Db, b: Block, day: int, name: string, id: RowId, delta: nat)
    requires OnDay(z, b, day) && Unique(db.meta) && name in db.meta && name != b.point && delta < Width(db.meta[name].dir)
    requires !Misfit(db, b)
    ensures var other := db.meta[name];
            var n := Slot(other.dir, other.idx, delta);
            CellOf(StoreBlock(z, db, b).lines, id, other.dir, n) == CellOf(db.lines, id, other.dir, n)
  {
    var m, other := MeterOf(db, b), db.meta[name];
    var n := Slot(other.dir, other.idx, delta);
    RegisterUnique(db.meta, b.point, DirectionOf(b.energy.data));
    StoreBlockCell(z, db, b, day, id, other.dir, n);
    TouchesOther(z, m, other, b, id, delta);
    assert forall p :: p in Organize(b.energy.data) ==> Stored(b.energy.data, p);
    CodesForget(z, b.energy.data, Organize(b.energy.data), m.dir, m.idx, id, other.dir, n, CellOf(db.lines, id, other.dir, n), CellOf(db.lines, id, other.dir, n));
  }

  /** The condition is needed: G.03 for a producer overwrites the first cell of the producer with the
      next index, whatever it held. */
  lemma MisfitInterferes(z: Zone, db: Db, b: Block, day: int, name: string, id: RowId)
    requires OnDay(z, b, day) && name in db.meta && id.day == day
    requires MeterOf(db, b).dir == Producer && db.meta[name].dir == Producer && db.meta[name].idx == MeterOf(db, b).idx + 1
    requires CoverHits(z, b.energy.data, Organize(b.energy.data), id)
    ensures var n := Slot(Producer, db.meta[name].idx, 0);
            forall cell :: CellOf(StoreBlock(z, db, b).lines, id, Producer, n) == CodesEffect(z, b.energy.data, Organize(b.energy.data), Producer, MeterOf(db, b).idx, id, Producer, n, cell)
  {
    var m, other := MeterOf(db, b), db.meta[name];
    var n := Slot(Producer, other.idx, 0);
    StoreBlockCell(z, db, b, day, id, Producer, n);
    TouchesOther(z, m, other, b, id, 0);
    forall cell ensures CellOf(StoreBlock(z, db, b).lines, id, Producer, n) == CodesEffect(z, b.energy.data, Organize(b.energy.data), Producer, m.idx, id, Producer, n, cell) {
      CodesForget(z, b.energy.data, Organize(b.energy.data), Producer, m.idx, id, Producer, n, CellOf(db.lines, id, Producer, n), cell);
    }
  }

  /** A case of it: storing 7 kWh of G.03 for producer A replaces the 5 kWh that producer B generated. */
  lemma CoverOverwritesNeighbour()
    ensures var z := Zone(d => d * (24 * HOUR), t => t / (24 * HOUR), t => t % (24 * HOUR), t => t, 0);
            var id := RowId(0, 0);
            var row := Row([], [0.0, 0.0, 5.0, 0.0], [], [0, 0, 1, 0]);
            var db := Db(map[id := row], map["A" := Meter(0, 0, Producer, None, None), "B" := Meter(1, 1, Producer, None, None)]);
            var b := Block("A", Energy(0, QUARTER, [CodeData(Cover, [Value(0, QUARTER, 1, 7.0)])]), None);
            CellOf(db.lines, id, Producer, 2).kwh == 5.0 && CellOf(StoreBlock(z, db, b).lines, id, Producer, 2).kwh == 7.0
  {
    var z := Zone(d => d * (24 * HOUR), t => t / (24 * HOUR), t => t % (24 * HOUR), t => t, 0);
    var id := RowId(0, 0);
    var row := Row([], [0.0, 0.0, 5.0, 0.0], [], [0, 0, 1, 0]);
    var db := Db(map[id := row], map["A" := Meter(0, 0, Producer, None, None), "B" := Meter(1, 1, Producer, None, None)]);
    CoverReplaces(z, db, "A", Value(0, QUARTER, 1, 7.0), QUARTER);
  }

  lemma CoverReplaces(z: Zone, db: Db, point: string, v: Value, end: int)
    requires point in db.meta && db.meta[point].dir == Producer && db.meta[point].idx == 0 && z.day(v.from) == z.day(end)
    ensures var b := Block(point, Energy(v.from, end, [CodeData(Cover, [v])]), None);
            CellOf(StoreBlock(z, db, b).lines, z.Row(v.from), Producer, 2).kwh == v.kwh
  {
    var data := [CodeData(Cover, [v])];
    var b := Block(point, Energy(v.from, end, data), None);
    OneCover(z, data, v);
    StoreBlockCell(z, db, b, z.day(v.from), z.Row(v.from), Producer, 2);
  }

  lemma OneCover(z: Zone, data: seq<CodeData>, v: Value)
    requires data == [CodeData(Cover, [v])]
    ensures Organize(data) == [Pick(0, 2)] && Sorted([v]) == [v]
    ensures forall id, cell :: id == z.Row(v.from) ==> CodesEffect(z, data, Organize(data), Producer, 0, id, Producer, 2, cell) == Cell(v.kwh, v.quality)
  {
    assert data[..0] == [];
    assert Picks(data[..0], false) == [] && Picks(data[..0], true) == [];
    assert Picks(data, false) == [Pick(0, 2)] && Picks(data, true) == [];
    assert [v][1..] == [] && [Pick(0, 2)][1..] == [];
    assert Sorted([]) == [];
    forall id, cell | id == z.Row(v.from) ensures CodesEffect(z, data, Organize(data), Producer, 0, id, Producer, 2, cell) == Cell(v.kwh, v.quality) {
      var next := Cell(v.kwh, v.quality);
      assert Effect(z, [v], id, false, cell) == Effect(z, [], id, true, next) == next;
      assert CodesEffect(z, data, [Pick(0, 2)], Producer, 0, id, Producer, 2, cell) == CodesEffect(z, data, [], Producer, 0, id, Producer, 2, next);
    }
  }

  // ----- histories -----

  lemma StoreBlockMeta(z: Zone, db: Db, b: Block)
    requires Unique(db.meta)
    ensures Unique(StoreBlock(z, db, b).meta)
    ensures forall n :: n in db.meta ==> n in StoreBlock(z, db, b).meta && StoreBlock(z, db, b).meta[n].dir == db.meta[n].dir && StoreBlock(z, db, b).meta[n].idx == db.meta[n].idx
  {
    RegisterUnique(db.meta, b.point, DirectionOf(b.energy.data));
    WidenUnique(z, Registered(db, b), b.point, b.energy.start, b.energy.end);
  }

  lemma WidenUnique(z: Zone, meta: Meta, point: string, begin: int, end: int)
    requires Unique(meta)
    ensures var w := WidenAt(z, meta, point, begin, end); Unique(w) && forall n :: n in meta ==> n in w && w[n].dir == meta[n].dir && w[n].idx == meta[n].idx
  {
  }

  /** Over any history from an empty store, no two metering points of a direction share an index. */
  lemma {:induction false} HistoryUnique(z: Zone, db: Db, blocks: seq<Block>)
    requires Unique(db.meta)
    ensures Unique(StoreAll(z, db, blocks).meta)
    decreases |blocks|
  {
    if blocks != [] {
      StoreBlockMeta(z, db, blocks[0]);
      HistoryUnique(z, StoreBlock(z, db, blocks[0]), blocks[1..]);
    }
  }

  /** Every block lies on one day and fits its metering point when it is stored. */
  ghost predicate AllFit(z: Zone, db: Db, blocks: seq<Block>)
    decreases |blocks|
  {
    blocks == [] || (OnDay(z, blocks[0], z.day(blocks[0].energy.start)) && !Misfit(db, blocks[0]) && AllFit(z, StoreBlock(z, db, blocks[0]), blocks[1..]))
  }

  /** Whatever is stored for others, the cells of a metering point stay. */
  lemma {:induction false} OthersNeverTouch(z: Zone, db: Db, blocks: seq<Block>, name: string, id: RowId, delta: nat)
    requires Unique(db.meta) && name in db.meta && delta < Width(db.meta[name].dir)
    requires AllFit(z, db, blocks) && forall b :: b in blocks ==> b.point != name
    ensures var other := db.meta[name];
            var n := Slot(other.dir, other.idx, delta);
            CellOf(StoreAll(z, db, blocks).lines, id, other.dir, n) == CellOf(db.lines, id, other.dir, n)
    decreases |blocks|
  {
    if blocks != [] {
      var b := blocks[0];
      assert b in blocks;
      NonInterference(z, db, b, z.day(b.energy.start), name, id, delta);
      StoreBlockMeta(z, db, b);
      OthersNeverTouch(z, StoreBlock(z, db, b), blocks[1..], name, id, delta);
    }
  }

  // ----- tidy rows -----

  /** Storing never leaves a quality beyond the values of a row. */
  lemma {:induction false} HistoryTidy(z: Zone, db: Db, blocks: seq<Block>)
    requires TidyLines(db.lines)
    ensures TidyLines(StoreAll(z, db, blocks).lines)
    decreases |blocks|
  {
    if blocks != [] {
      BlockTidy(z, db, blocks[0]);
      HistoryTidy(z, StoreBlock(z, db, blocks[0]), blocks[1..]);
    }
  }

  lemma BlockTidy(z: Zone, db: Db, b: Block)
    requires TidyLines(db.lines)
    ensures TidyLines(StoreBlock(z, db, b).lines)
  {
    WrittenTidy(z, db, b);
    BothTidy(db.lines, Written(z, db, b));
  }

  lemma BothTidy(a: Lines, b: Lines)
    requires TidyLines(a) && TidyLines(b)
    ensures TidyLines(a + b)
  {
  }

  lemma WrittenTidy(z: Zone, db: Db, b: Block)
    ensures TidyLines(Written(z, db, b))
  {
    var meta := Registered(db, b);
    var m, c := meta[b.point], if b.counts.Some? then b.counts.value else Info(meta);
    FetchTidy(db.lines, z.day(b.energy.start), z.day(b.energy.end));
    CodesTidy(z, Fetch(db.lines, z.day(b.energy.start), z.day(b.energy.end)), b.energy.data, Organize(b.energy.data), m.dir, m.idx, c.consumers, c.producers);
  }

  lemma FetchTidy(lines: Lines, from: int, until: int)
    ensures TidyLines(Fetch(lines, from, until))
  {
  }

  lemma {:induction false} CodesTidy(z: Zone, lines: Lines, data: seq<CodeData>, picks: seq<Pick>, dir: Direction, idx: nat, c: nat, p: nat)
    requires TidyLines(lines) && forall q :: q in picks ==> q.source < |data|
    ensures TidyLines(ImportCodes(z, lines, data, picks, dir, idx, c, p))
    decreases |picks|
  {
    if picks != [] {
      ImportValuesTidy(z, lines, Sorted(data[picks[0].source].values), {}, dir, Slot(dir, idx, picks[0].delta), c, p);
      CodesTidy(z, ImportPick(z, lines, data, picks[0], dir, idx, c, p), data, picks[1..], dir, idx, c, p);
    }
  }

  // ----- periods -----

  /** The period of the meter reaches over that of a block, day by day, if the block starts before now and
      ends after the first second of the epoch. */
  predicate CoversPeriod(z: Zone, m: Meter, e: Energy) {
    && (e.start < z.now ==> m.start.Some? && z.day(m.start.value) <= z.day(e.start))
    && (1000 < e.end ==> m.end.Some? && z.day(e.end) <= z.day(m.end.value))
  }

  lemma WidenCovers(z: Zone, m: Meter, e: Energy)
    requires z.Valid()
    ensures CoversPeriod(z, Widen(z, m, e.start, e.end), e)
  {
    var s, t := if m.start.Some? then m.start.value else z.now, if m.end.Some? then m.end.value else 1000;
    assert z.day(z.stamp(e.start)) == z.day(e.start) && z.day(z.stamp(e.end)) == z.day(e.end);
    if s <= e.start {
      DayMonotone(z, s, e.start);
    }
    if e.end <= t {
      DayMonotone(z, e.end, t);
    }
  }

  lemma WidenKeepsCover(z: Zone, m: Meter, e: Energy, f: Energy)
    requires z.Valid() && CoversPeriod(z, m, e)
    ensures CoversPeriod(z, Widen(z, m, f.start, f.end), e)
  {
    var s, t := if m.start.Some? then m.start.value else z.now, if m.end.Some? then m.end.value else 1000;
    assert z.day(z.stamp(f.start)) == z.day(f.start) && z.day(z.stamp(f.end)) == z.day(f.end);
    if f.start < s {
      DayMonotone(z, f.start, s);
    }
    if t < f.end {
      DayMonotone(z, t, f.end);
    }
  }

  lemma StoreCovers(z: Zone, db: Db, b: Block, point: string, e: Energy)
    requires z.Valid() && ((point == b.point && e == b.energy) || (point in db.meta && CoversPeriod(z, db.meta[point], e)))
    ensures var meta := StoreBlock(z, db, b).meta; point in meta && CoversPeriod(z, meta[point], e)
  {
    var reg := Registered(db, b);
    WidenCovers(z, reg[b.point], b.energy);
    if !(point == b.point && e == b.energy) {
      WidenKeepsCover(z, db.meta[point], e, b.energy);
    }
  }

  lemma {:induction false} StoresCover(z: Zone, db: Db, blocks: seq<Block>, point: string, e: Energy)
    requires z.Valid() && point in db.meta && CoversPeriod(z, db.meta[point], e)
    ensures var meta := StoreAll(z, db, blocks).meta; point in meta && CoversPeriod(z, meta[point], e)
    decreases |blocks|
  {
    if blocks != [] {
      StoreCovers(z, db, blocks[0], point, e);
      StoresCover(z, StoreBlock(z, db, blocks[0]), blocks[1..], point, e);
    }
  }

  /** Over any history the period of a metering point covers the days of all its stored blocks. */
  lemma {:induction false} PeriodCovers(z: Zone, db: Db, blocks: seq<Block>, b: Block)
    requires z.Valid() && b in blocks
    ensures var meta := StoreAll(z, db, blocks).meta; b.point in meta && CoversPeriod(z, meta[b.point], b.energy)
    decreases |blocks|
  {
    var next := StoreBlock(z, db, blocks[0]);
    if b == blocks[0] {
      StoreCovers(z, db, b, b.point, b.energy);
      StoresCover(z, next, blocks[1..], b.point, b.energy);
    } else {
      PeriodCovers(z, next, blocks[1..], b);
    }
  }

  /** The bounds of a metering point, none if it is unknown. */
  function BoundsOf(meta: Meta, point: string): (Option<int>, Option<int>) {
    if point in meta then (meta[point].start, meta[point].end) else (None, None)
  }

  /** The bounds come from before or from a stored block of the metering point. */
  ghost predicate BoundsFrom(z: Zone, old_: (Option<int>, Option<int>), new_: (Option<int>, Option<int>), blocks: seq<Block>, point: string) {
    && (new_.0 == old_.0 || exists b :: b in blocks && b.point == point && new_.0 == Some(z.stamp(b.energy.start)))
    && (new_.1 == old_.1 || exists b :: b in blocks && b.point == point && new_.1 == Some(z.stamp(b.energy.end)))
  }

  lemma {:induction false} PeriodTight(z: Zone, db: Db, blocks: seq<Block>, point: string)
    ensures BoundsFrom(z, BoundsOf(db.meta, point), BoundsOf(StoreAll(z, db, blocks).meta, point), blocks, point)
    decreases |blocks|
  {
    if blocks != [] {
      var b := blocks[0];
      PeriodTight(z, StoreBlock(z, db, b), blocks[1..], point);
      BlockBounds(z, db, b, point);
      assert b in blocks && forall x :: x in blocks[1..] ==> x in blocks;
    }
  }

  lemma BlockBounds(z: Zone, db: Db, b: Block, point: string)
    ensures var was, now := BoundsOf(db.meta, point), BoundsOf(StoreBlock(z, db, b).meta, point);
            && (now.0 == was.0 || (b.point == point && now.0 == Some(z.stamp(b.energy.start))))
            && (now.1 == was.1 || (b.point == point && now.1 == Some(z.stamp(b.energy.end))))
  {
  }
}
