/** What the meter codes mean, from the message to the reports: the value of a code is what the reports
    show for its quantity, whatever slot carries it between the two (utils/counterpoint.go). */
module CodeMeaning {
  import opened Calendar
  import opened Rows
  import opened Registry
  import opened StoreSpec
  import opened StoreLaws
  import Buckets
  import Engine
  import Summaries

  /** What is measured: consumption, share and own coverage of a consumer, generation and surplus of
      a producer. */
  datatype Quantity = Consumption | Allotment | Coverage | Generation | Surplus

  predicate Tells(code: MeterCode, q: Quantity) {
    match q
    case Consumption => code == Con || code == ConTF
    case Allotment => code == Share
    case Coverage => code == Cover
    case Generation => code == Gen || code == GenTF
    case Surplus => code == Plus || code == PlusTF
  }

  function SideOf(q: Quantity): Direction {
    if q == Generation || q == Surplus then Producer else Consumer
  }

  /** The code of a weighted measurement, which wins over the plain one. */
  predicate Weighted(code: MeterCode) {
    code == ConTF || code == GenTF || code == PlusTF
  }

  /** No code of the block belongs to the other kind of meter. */
  ghost predicate Suits(m: Meter, data: seq<CodeData>) {
    forall e, q :: 0 <= e < |data| && Tells(data[e].code, q) ==> SideOf(q) == m.dir
  }

  /** All quantities of the block are those of one side, and there is one. */
  ghost predicate OneSided(data: seq<CodeData>, dir: Direction) {
    && (forall e, q :: 0 <= e < |data| && Tells(data[e].code, q) ==> SideOf(q) == dir)
    && (exists e, q :: 0 <= e < |data| && Tells(data[e].code, q))
  }

  /** A new metering point gets the direction of its first block, so that the block suits it. */
  lemma NewMeterSuits(db: Db, b: Block, dir: Direction)
    requires b.point !in db.meta && OneSided(b.energy.data, dir)
    ensures MeterOf(db, b).dir == dir && Suits(MeterOf(db, b), b.energy.data)
  {
    var data := b.energy.data;
    var e, q :| 0 <= e < |data| && Tells(data[e].code, q);
    assert SideOf(q) == dir;
    forall i | 0 <= i < |data| && data[i].code in {Plus, PlusTF, Gen, GenTF} ensures dir == Producer {
      assert Tells(data[i].code, Told(data[i].code)) && SideOf(Told(data[i].code)) == Producer;
    }
  }

  // ----- where the reports read -----

  /** The slot that the reports show as the quantity of meter idx. */
  function Place(q: Quantity, idx: nat): nat {
    match q
    case Consumption => 3 * idx
    case Allotment => 3 * idx + 1
    case Coverage => 3 * idx + 2
    case Generation => 2 * idx
    case Surplus => 2 * idx + 1
  }

  /** The place of a quantity is the slot of its codes. */
  lemma PlaceOfCode(data: seq<CodeData>, p: Pick, m: Meter, q: Quantity)
    requires Stored(data, p) && Suits(m, data) && SideOf(q) == m.dir
    ensures Place(q, m.idx) == Slot(m.dir, m.idx, p.delta) <==> Tells(data[p.source].code, q)
  {
    var code := data[p.source].code;
    var own := Told(code);
    assert Tells(code, own);
    assert SideOf(own) == m.dir;
    TellsOne(code, q);
    PlacesApart(own, q, m.idx);
  }

  /** The quantity of a stored code. */
  function Told(code: MeterCode): (q: Quantity)
    ensures code != CoverTF && code != Other ==> Tells(code, q)
  {
    match code
    case Gen | GenTF => Generation
    case Plus | PlusTF => Surplus
    case Share => Allotment
    case Cover | CoverTF => Coverage
    case Con | ConTF | Other => Consumption
  }

  lemma TellsOne(code: MeterCode, q: Quantity)
    requires code != CoverTF && code != Other
    ensures Tells(code, q) <==> q == Told(code)
  {
  }

  lemma PlacesApart(p: Quantity, q: Quantity, idx: nat)
    requires SideOf(p) == SideOf(q)
    ensures Place(p, idx) == Place(q, idx) <==> p == q
  {
  }

  /** The reading of the quantity in row id, as the reports take it from the line. */
  ghost function Reading(lines: Lines, id: RowId, q: Quantity, idx: nat): Cell {
    CellOf(lines, id, SideOf(q), Place(q, idx))
  }

  // ----- what a block tells -----

  /** What the values say about row id: their sum, as the autumn hour has two. */
  function KwhIn(z: Zone, vals: seq<Value>, id: RowId): real {
    if vals == [] then 0.0 else KwhIn(z, vals[1..], id) + if z.Row(vals[0].from) == id then vals[0].kwh else 0.0
  }

  lemma {:induction false} KwhInsert(z: Zone, v: Value, s: seq<Value>, id: RowId)
    ensures KwhIn(z, InsertSorted(v, s), id) == KwhIn(z, s, id) + if z.Row(v.from) == id then v.kwh else 0.0
  {
    if s == [] || Second(v) <= Second(s[0]) {
      assert ([v] + s)[1..] == s;
    } else {
      KwhInsert(z, v, s[1..], id);
      assert ([s[0]] + InsertSorted(v, s[1..]))[1..] == InsertSorted(v, s[1..]);
    }
  }

  lemma {:induction false} KwhSorted(z: Zone, s: seq<Value>, id: RowId)
    ensures KwhIn(z, Sorted(s), id) == KwhIn(z, s, id)
  {
    if s != [] {
      KwhSorted(z, s[1..], id);
      KwhInsert(z, s[0], Sorted(s[1..]), id);
    }
  }

  lemma HitsSorted(z: Zone, s: seq<Value>, id: RowId)
    ensures Hits(z, Sorted(s), id) <==> Hits(z, s, id)
  {
    SortedIsSort(s);
    if Hits(z, s, id) {
      var i :| 0 <= i < |s| && z.Row(s[i].from) == id;
      assert s[i] in multiset(Sorted(s));
    }
    if Hits(z, Sorted(s), id) {
      var i :| 0 <= i < |Sorted(s)| && z.Row(Sorted(s)[i].from) == id;
      assert Sorted(s)[i] in multiset(s);
    }
  }

  lemma {:induction false} EffectAdds(z: Zone, vals: seq<Value>, id: RowId, cell: Cell)
    ensures Effect(z, vals, id, true, cell) == cell.(kwh := cell.kwh + KwhIn(z, vals, id))
    decreases |vals|
  {
    if vals != [] {
      EffectAdds(z, vals[1..], id, if z.Row(vals[0].from) == id then CellAfter(cell, vals[0], true) else cell);
    }
  }

  /** The cell holds what the values say about its row, and the quality of one of them. */
  ghost predicate Shows(z: Zone, cell: Cell, vals: seq<Value>, id: RowId) {
    cell.kwh == KwhIn(z, vals, id) && exists v :: v in vals && z.Row(v.from) == id && cell.quality == v.quality
  }

  lemma {:induction false} EffectShows(z: Zone, vals: seq<Value>, id: RowId, cell: Cell)
    requires Hits(z, vals, id)
    ensures Shows(z, Effect(z, vals, id, false, cell), vals, id)
    decreases |vals|
  {
    var i :| 0 <= i < |vals| && z.Row(vals[i].from) == id;
    if z.Row(vals[0].from) == id {
      EffectAdds(z, vals[1..], id, CellAfter(cell, vals[0], false));
      assert vals[0] in vals;
    } else {
      assert vals[1..][i - 1] == vals[i];
      EffectShows(z, vals[1..], id, cell);
    }
  }

  /** Entry f gives way to entry e: a plain code to a weighted one, else the earlier to the later. */
  predicate GivesWay(data: seq<CodeData>, f: nat, e: nat)
    requires f < |data| && e < |data|
  {
    if Weighted(data[f].code) == Weighted(data[e].code) then f < e else Weighted(data[e].code)
  }

  /** Entry e has the say about the quantity in row id. */
  ghost predicate Decides(z: Zone, data: seq<CodeData>, e: nat, q: Quantity, id: RowId) {
    && Says(z, data, e, q, id)
    && forall f: nat :: f != e && Says(z, data, f, q, id) ==> GivesWay(data, f, e)
  }

  /** Entry e has a value of the quantity for row id. */
  ghost predicate Says(z: Zone, data: seq<CodeData>, e: nat, q: Quantity, id: RowId) {
    e < |data| && Tells(data[e].code, q) && Hits(z, data[e].values, id)
  }

  // ----- from the message to the store -----

  lemma {:induction false} CodesConcat(z: Zone, data: seq<CodeData>, a: seq<Pick>, b: seq<Pick>, dir: Direction, idx: nat, id: RowId, d: Direction, n: nat, cell: Cell)
    requires forall p :: p in a + b ==> p.source < |data|
    ensures CodesEffect(z, data, a + b, dir, idx, id, d, n, cell) == CodesEffect(z, data, b, dir, idx, id, d, n, CodesEffect(z, data, a, dir, idx, id, d, n, cell))
    decreases |a|
  {
    if a == [] {
      assert a + b == b;
    } else {
      assert (a + b)[1..] == a[1..] + b && (a + b)[0] == a[0];
      var next := if d == dir && n == Slot(dir, idx, a[0].delta) then Effect(z, Sorted(data[a[0].source].values), id, false, cell) else cell;
      CodesConcat(z, data, a[1..], b, dir, idx, id, d, n, next);
    }
  }

  /** A pick that writes the place of the quantity in row id comes from an entry that says something. */
  lemma WriterSays(z: Zone, data: seq<CodeData>, p: Pick, m: Meter, q: Quantity, id: RowId)
    requires Stored(data, p) && Suits(m, data) && SideOf(q) == m.dir
    ensures Place(q, m.idx) == Slot(m.dir, m.idx, p.delta) && Hits(z, Sorted(data[p.source].values), id) <==> Says(z, data, p.source, q, id)
  {
    PlaceOfCode(data, p, m, q);
    HitsSorted(z, data[p.source].values, id);
  }

  /** Without an entry that says something about it, the quantity stays. */
  lemma NoneSays(z: Zone, data: seq<CodeData>, picks: seq<Pick>, m: Meter, q: Quantity, id: RowId, cell: Cell)
    requires Suits(m, data) && SideOf(q) == m.dir && forall p :: p in picks ==> Stored(data, p)
    requires forall p :: p in picks ==> !Says(z, data, p.source, q, id)
    ensures forall p :: p in picks ==> p.source < |data|
    ensures CodesEffect(z, data, picks, m.dir, m.idx, id, m.dir, Place(q, m.idx), cell) == cell
  {
    var n := Place(q, m.idx);
    forall i | 0 <= i < |picks| ensures picks[i].source < |data| && !(n == Slot(m.dir, m.idx, picks[i].delta) && Hits(z, Sorted(data[picks[i].source].values), id)) {
      assert picks[i] in picks;
      WriterSays(z, data, picks[i], m, q, id);
    }
    CodesForget(z, data, picks, m.dir, m.idx, id, m.dir, n, cell, cell);
  }

  /** The picks after the one of entry e have nothing to say about what e decides. */
  lemma NoneAfter(z: Zone, data: seq<CodeData>, k: nat, q: Quantity, id: RowId, p: Pick)
    requires k < |Organize(data)| && Decides(z, data, Organize(data)[k].source, q, id)
    requires p in Organize(data)[k + 1..]
    ensures !Says(z, data, p.source, q, id)
  {
    var picks := Organize(data);
    var i :| 0 <= i < |picks[k + 1..]| && picks[k + 1..][i] == p;
    OrganizeOrder(data, k, k + 1 + i);
    assert picks[k + 1 + i] == p;
  }

  lemma SortedShows(z: Zone, vals: seq<Value>, id: RowId, cell: Cell)
    requires Hits(z, vals, id)
    ensures Shows(z, Effect(z, Sorted(vals), id, false, cell), vals, id)
  {
    HitsSorted(z, vals, id);
    EffectShows(z, Sorted(vals), id, cell);
    KwhSorted(z, vals, id);
    SortedIsSort(vals);
    assert forall v :: v in Sorted(vals) ==> v in multiset(Sorted(vals));
  }

  /** A pick that says something about the quantity, with none after it that does. */
  lemma LastSays(z: Zone, data: seq<CodeData>, picks: seq<Pick>, m: Meter, q: Quantity, id: RowId, cell: Cell)
    requires Suits(m, data) && SideOf(q) == m.dir && picks != [] && forall p :: p in picks ==> Stored(data, p)
    requires Says(z, data, picks[0].source, q, id) && forall p :: p in picks[1..] ==> !Says(z, data, p.source, q, id)
    ensures forall p :: p in picks ==> p.source < |data|
    ensures Shows(z, CodesEffect(z, data, picks, m.dir, m.idx, id, m.dir, Place(q, m.idx), cell), data[picks[0].source].values, id)
  {
    var vals := data[picks[0].source].values;
    assert picks[0] in picks;
    WriterSays(z, data, picks[0], m, q, id);
    SortedShows(z, vals, id, cell);
    NoneSays(z, data, picks[1..], m, q, id, Effect(z, Sorted(vals), id, false, cell));
  }

  /** The entry that decides is the one whose values the cell shows. */
  lemma CodesTell(z: Zone, data: seq<CodeData>, e: nat, m: Meter, q: Quantity, id: RowId, cell: Cell)
    requires Suits(m, data) && SideOf(q) == m.dir && Decides(z, data, e, q, id)
    ensures Shows(z, CodesEffect(z, data, Organize(data), m.dir, m.idx, id, m.dir, Place(q, m.idx), cell), data[e].values, id)
  {
    var picks, n := Organize(data), Place(q, m.idx);
    OrganizeAll(data, e);
    var k :| 0 <= k < |picks| && picks[k].source == e;
    var before, rest := picks[..k], picks[k..];
    assert picks == before + rest && rest[1..] == picks[k + 1..];
    CodesConcat(z, data, before, rest, m.dir, m.idx, id, m.dir, n, cell);
    forall p | p in rest[1..] ensures !Says(z, data, p.source, q, id) {
      NoneAfter(z, data, k, q, id, p);
    }
    LastSays(z, data, rest, m, q, id, CodesEffect(z, data, before, m.dir, m.idx, id, m.dir, n, cell));
  }

  /** The reading of a meter after a block of its own: what the deciding entry says, else what it was. */
  lemma StoredIsTold(z: Zone, db: Db, b: Block, day: int, id: RowId, q: Quantity)
    requires OnDay(z, b, day) && id.day == day && Suits(MeterOf(db, b), b.energy.data) && SideOf(q) == MeterOf(db, b).dir
    ensures var idx, now := MeterOf(db, b).idx, StoreBlock(z, db, b).lines;
            && (forall e: nat :: Decides(z, b.energy.data, e, q, id) ==> Shows(z, Reading(now, id, q, idx), b.energy.data[e].values, id))
            && ((forall e: nat :: !Says(z, b.energy.data, e, q, id)) ==> Reading(now, id, q, idx) == Reading(db.lines, id, q, idx))
  {
    var m, data := MeterOf(db, b), b.energy.data;
    var was := Reading(db.lines, id, q, m.idx);
    StoreBlockCell(z, db, b, day, id, m.dir, Place(q, m.idx));
    forall e: nat | Decides(z, data, e, q, id)
      ensures Shows(z, Reading(StoreBlock(z, db, b).lines, id, q, m.idx), data[e].values, id)
    {
      CodesTell(z, data, e, m, q, id, was);
    }
    if forall e: nat :: !Says(z, data, e, q, id) {
      NoneSays(z, data, Organize(data), m, q, id, was);
    }
  }

  /** If any entry says something about the quantity, one of them decides it. */
  lemma {:induction false} OneDecides(z: Zone, data: seq<CodeData>, n: nat, q: Quantity, id: RowId)
    requires n <= |data|
    ensures (exists e: nat :: e < n && Says(z, data, e, q, id)) ==> exists e: nat :: e < n && DecidesUpTo(z, data, n, e, q, id)
  {
    if n > 0 {
      OneDecides(z, data, n - 1, q, id);
      if exists e: nat :: e < n - 1 && Says(z, data, e, q, id) {
        var e: nat :| e < n - 1 && DecidesUpTo(z, data, n - 1, e, q, id);
        if Says(z, data, n - 1, q, id) && GivesWay(data, e, n - 1) {
          assert DecidesUpTo(z, data, n, n - 1, q, id);
        } else {
          assert DecidesUpTo(z, data, n, e, q, id);
        }
      } else if Says(z, data, n - 1, q, id) {
        assert DecidesUpTo(z, data, n, n - 1, q, id);
      }
    }
  }

  /** Entry e has the say among the first n. */
  ghost predicate DecidesUpTo(z: Zone, data: seq<CodeData>, n: nat, e: nat, q: Quantity, id: RowId) {
    && Says(z, data, e, q, id)
    && forall f: nat :: f < n && f != e && Says(z, data, f, q, id) ==> GivesWay(data, f, e)
  }

  /** So a reading stays or shows the values of one entry. */
  lemma ToldOrKept(z: Zone, db: Db, b: Block, day: int, id: RowId, q: Quantity)
    requires OnDay(z, b, day) && id.day == day && Suits(MeterOf(db, b), b.energy.data) && SideOf(q) == MeterOf(db, b).dir
    ensures var idx, now := MeterOf(db, b).idx, StoreBlock(z, db, b).lines;
            if exists e: nat :: Says(z, b.energy.data, e, q, id)
            then exists e: nat :: Decides(z, b.energy.data, e, q, id) && Shows(z, Reading(now, id, q, idx), b.energy.data[e].values, id)
            else Reading(now, id, q, idx) == Reading(db.lines, id, q, idx)
  {
    var data := b.energy.data;
    StoredIsTold(z, db, b, day, id, q);
    OneDecides(z, data, |data|, q, id);
    if exists e: nat :: Says(z, data, e, q, id) {
      var e: nat :| Says(z, data, e, q, id);
      var f: nat :| f < |data| && DecidesUpTo(z, data, |data|, f, q, id);
      assert Decides(z, data, f, q, id);
    }
  }

  // ----- from the store to the reports -----

  /** v is the only one of the values for its row. */
  ghost predicate Sole(z: Zone, vals: seq<Value>, v: Value) {
    exists i :: 0 <= i < |vals| && vals[i] == v && forall j :: 0 <= j < |vals| && j != i ==> z.Row(vals[j].from) != z.Row(v.from)
  }

  lemma {:induction false} KwhNone(z: Zone, vals: seq<Value>, id: RowId)
    requires forall j :: 0 <= j < |vals| ==> z.Row(vals[j].from) != id
    ensures KwhIn(z, vals, id) == 0.0
  {
    if vals != [] {
      KwhNone(z, vals[1..], id);
    }
  }

  lemma {:induction false} KwhSole(z: Zone, vals: seq<Value>, i: nat)
    requires i < |vals| && forall j :: 0 <= j < |vals| && j != i ==> z.Row(vals[j].from) != z.Row(vals[i].from)
    ensures KwhIn(z, vals, z.Row(vals[i].from)) == vals[i].kwh
  {
    if i == 0 {
      KwhNone(z, vals[1..], z.Row(vals[0].from));
    } else {
      KwhSole(z, vals[1..], i - 1);
    }
  }

  lemma SoleShows(z: Zone, vals: seq<Value>, v: Value, cell: Cell)
    requires Sole(z, vals, v) && Shows(z, cell, vals, z.Row(v.from))
    ensures cell == Cell(v.kwh, v.quality)
  {
    var i :| 0 <= i < |vals| && vals[i] == v && forall j :: 0 <= j < |vals| && j != i ==> z.Row(vals[j].from) != z.Row(v.from);
    KwhSole(z, vals, i);
  }

  /** The reading of the row of a value that decides. */
  lemma ValueTold(z: Zone, db: Db, b: Block, day: int, e: nat, q: Quantity, v: Value)
    requires OnDay(z, b, day) && Suits(MeterOf(db, b), b.energy.data)
    requires Decides(z, b.energy.data, e, q, z.Row(v.from)) && Sole(z, b.energy.data[e].values, v)
    ensures SideOf(q) == MeterOf(db, b).dir && Reading(StoreBlock(z, db, b).lines, z.Row(v.from), q, MeterOf(db, b).idx) == Cell(v.kwh, v.quality)
  {
    var data, id := b.energy.data, z.Row(v.from);
    OrganizeAll(data, e);
    var k :| 0 <= k < |Organize(data)| && Organize(data)[k].source == e;
    assert Organize(data)[k] in Organize(data) && v in data[e].values;
    StoredIsTold(z, db, b, day, id, q);
    SoleShows(z, data[e].values, v, Reading(StoreBlock(z, db, b).lines, id, q, MeterOf(db, b).idx));
  }

  /** What the reports take from the line for the code: the bucket report knows production,
      distribution and utilization, the hourly report adds up the consumption and the share. */
  function Taken(line: Buckets.Line, code: MeterCode, idx: nat): real {
    match code
    case Gen | GenTF => Buckets.ValueOf(line, Buckets.Produced, idx)
    case Plus | PlusTF => Buckets.ValueOf(line, Buckets.Distributed, idx)
    case Cover => Buckets.ValueOf(line, Buckets.Utilized, idx)
    case Con | ConTF => At(line.row.cons, 3 * idx, 0.0)
    case Share => At(line.row.cons, 3 * idx + 1, 0.0)
    case CoverTF | Other => 0.0
  }

  lemma TakenIsReading(line: Buckets.Line, code: MeterCode, q: Quantity, idx: nat)
    requires Tells(code, q)
    ensures Taken(line, code, idx) == RowCell(line.row, SideOf(q), Place(q, idx)).kwh
  {
  }

  /** The codes and the bucket report: a value that decides its row is what the report adds up for the
      meter, G.01 of a producer as produced, P.01 as distributed, G.03 of a consumer as utilized; the
      weighted codes mean the same. */
  lemma CodesMean(z: Zone, db: Db, b: Block, day: int, e: nat, q: Quantity, v: Value, line: Buckets.Line)
    requires OnDay(z, b, day) && Suits(MeterOf(db, b), b.energy.data)
    requires Decides(z, b.energy.data, e, q, z.Row(v.from)) && Sole(z, b.energy.data[e].values, v)
    requires var now := StoreBlock(z, db, b).lines; z.Row(v.from) in now && line.row == now[z.Row(v.from)]
    ensures Taken(line, b.energy.data[e].code, MeterOf(db, b).idx) == v.kwh
  {
    ValueTold(z, db, b, day, e, q, v);
    TakenIsReading(line, b.energy.data[e].code, q, MeterOf(db, b).idx);
  }

  /** What the row adds to the hourly report. */
  function Reported(lines: Lines, id: RowId): Engine.Amounts {
    if id in lines then Engine.RowAmounts(Summaries.CellsOf(lines[id])) else Engine.EMPTY
  }

  /** The field of the report for the quantity. */
  function Field(a: Engine.Amounts, q: Quantity): real {
    match q
    case Consumption => a.consumed
    case Allotment => a.shared
    case Coverage => a.distributed
    case Generation => a.produced
    case Surplus => a.unused
  }

  /** The report adds up every third consumer slot or every second producer slot, from here on. */
  function Offset(q: Quantity): (off: nat)
    ensures off < Width(SideOf(q))
  {
    Place(q, 0)
  }

  lemma PlaceNext(q: Quantity, i: nat)
    ensures Place(q, i + 1) == Place(q, i) + Width(SideOf(q))
  {
  }

  /** The arrays agree in every place of the quantity but that of meter idx. */
  ghost predicate AgreeBut(s: seq<real>, t: seq<real>, q: Quantity, idx: int) {
    forall i: nat :: i != idx ==> At(s, Place(q, i), 0.0) == At(t, Place(q, i), 0.0)
  }

  /** Then their sums over the meters differ by that one place. */
  lemma {:induction false} ColumnMoves(s: seq<real>, t: seq<real>, q: Quantity, idx: int)
    requires |s| == |t| && |s| % Width(SideOf(q)) == 0 && AgreeBut(s, t, q, idx)
    ensures var w, off := Width(SideOf(q)), Offset(q);
            Engine.Column(t, w, off) - Engine.Column(s, w, off) == if idx < 0 then 0.0 else At(t, Place(q, idx), 0.0) - At(s, Place(q, idx), 0.0)
    decreases |s|
  {
    var w, off := Width(SideOf(q)), Offset(q);
    if s != [] {
      Engine.WholeBlocks(|s|, w);
      var s', t' := s[w..], t[w..];
      forall i: nat | i != idx - 1 ensures At(s', Place(q, i), 0.0) == At(t', Place(q, i), 0.0) {
        PlaceNext(q, i);
        assert At(s, Place(q, i + 1), 0.0) == At(t, Place(q, i + 1), 0.0);
      }
      ColumnMoves(s', t', q, idx - 1);
      assert idx != 0 ==> At(s, Place(q, 0), 0.0) == At(t, Place(q, 0), 0.0);
      if idx > 0 {
        PlaceNext(q, idx - 1);
      }
    }
  }

  /** The sum over the meters of a row whose last block may be unfinished. */
  function Total(s: seq<real>, q: Quantity): real {
    Engine.Column(Engine.Sized(s, Engine.Up(|s|, Width(SideOf(q)))), Width(SideOf(q)), Offset(q))
  }

  lemma TotalOfSized(s: seq<real>, q: Quantity, n: nat)
    requires |s| <= n && n % 6 == 0
    ensures n % Width(SideOf(q)) == 0
    ensures Total(s, q) == Engine.Column(Engine.Sized(s, n), Width(SideOf(q)), Offset(q))
  {
    assert n % 2 == 0 && n % 3 == 0;
    Engine.ColumnOfSized(s, n, Width(SideOf(q)), Offset(q));
  }

  lemma SizedAt(s: seq<real>, n: nat, k: nat)
    requires |s| <= n
    ensures At(Engine.Sized(s, n), k, 0.0) == At(s, k, 0.0)
  {
  }

  /** The same for rows of any length. */
  lemma TotalMoves(s: seq<real>, t: seq<real>, q: Quantity, idx: int)
    requires AgreeBut(s, t, q, idx)
    ensures Total(t, q) - Total(s, q) == if idx < 0 then 0.0 else At(t, Place(q, idx), 0.0) - At(s, Place(q, idx), 0.0)
  {
    var n := 6 * (|s| + |t|);
    var s', t' := Engine.Sized(s, n), Engine.Sized(t, n);
    TotalOfSized(s, q, n);
    TotalOfSized(t, q, n);
    forall k: nat ensures At(s', k, 0.0) == At(s, k, 0.0) && At(t', k, 0.0) == At(t, k, 0.0) {
      SizedAt(s, n, k);
      SizedAt(t, n, k);
    }
    assert AgreeBut(s', t', q, idx);
    ColumnMoves(s', t', q, idx);
  }

  /** The values a report reads of the row; without a row there are none. */
  function ValuesAt(lines: Lines, id: RowId, dir: Direction): seq<real> {
    if id in lines then Values(lines[id], dir) else []
  }

  lemma FieldIsTotal(lines: Lines, id: RowId, q: Quantity)
    ensures Field(Reported(lines, id), q) == Total(ValuesAt(lines, id, SideOf(q)), q)
  {
  }

  lemma ReadingIsValue(lines: Lines, id: RowId, q: Quantity, idx: nat)
    ensures Reading(lines, id, q, idx).kwh == At(ValuesAt(lines, id, SideOf(q)), Place(q, idx), 0.0)
  {
  }

  /** A block whose codes suit its meter changes no slot of any other index or direction. */
  lemma OthersStay(z: Zone, db: Db, b: Block, day: int, id: RowId, q: Quantity, i: nat)
    requires OnDay(z, b, day) && Suits(MeterOf(db, b), b.energy.data)
    requires SideOf(q) != MeterOf(db, b).dir || i != MeterOf(db, b).idx
    ensures Reading(StoreBlock(z, db, b).lines, id, q, i) == Reading(db.lines, id, q, i)
  {
    var m, data := MeterOf(db, b), b.energy.data;
    var was := Reading(db.lines, id, q, i);
    StoreBlockCell(z, db, b, day, id, SideOf(q), Place(q, i));
    TouchesOther(z, m, Meter(i, i, SideOf(q), None, None), b, id, Offset(q));
    if m.dir == Producer {
      NoForeignCover(z, m, data, id);
    }
    CodesForget(z, data, Organize(data), m.dir, m.idx, id, SideOf(q), Place(q, i), was, was);
  }

  lemma NoForeignCover(z: Zone, m: Meter, data: seq<CodeData>, id: RowId)
    requires Suits(m, data) && m.dir == Producer
    ensures !CoverHits(z, data, Organize(data), id)
  {
    forall i | 0 <= i < |Organize(data)| ensures Organize(data)[i].delta != 2 {
      var p := Organize(data)[i];
      assert p in Organize(data);
      assert Stored(data, p);
      if data[p.source].code == Cover {
        assert SideOf(Coverage) == m.dir by { assert Tells(data[p.source].code, Coverage); }
      }
    }
  }

  /** The report moves by what the meter's own reading moves, and no other quantity changes. */
  lemma ReportMoves(z: Zone, db: Db, b: Block, day: int, id: RowId, q: Quantity)
    requires OnDay(z, b, day) && Suits(MeterOf(db, b), b.energy.data)
    ensures var m, was, now := MeterOf(db, b), db.lines, StoreBlock(z, db, b).lines;
            Field(Reported(now, id), q) - Field(Reported(was, id), q) ==
            if SideOf(q) == m.dir then Reading(now, id, q, m.idx).kwh - Reading(was, id, q, m.idx).kwh else 0.0
  {
    var m, was, now := MeterOf(db, b), db.lines, StoreBlock(z, db, b).lines;
    var s, t := ValuesAt(was, id, SideOf(q)), ValuesAt(now, id, SideOf(q));
    var idx: int := if SideOf(q) == m.dir then m.idx else -1;
    forall i: nat | i != idx ensures At(s, Place(q, i), 0.0) == At(t, Place(q, i), 0.0) {
      OthersStay(z, db, b, day, id, q, i);
      ReadingIsValue(was, id, q, i);
      ReadingIsValue(now, id, q, i);
    }
    assert AgreeBut(s, t, q, idx);
    TotalMoves(s, t, q, idx);
    FieldIsTotal(was, id, q);
    FieldIsTotal(now, id, q);
    ReadingIsValue(was, id, q, m.idx);
    ReadingIsValue(now, id, q, m.idx);
  }

  /** The field of the report for the quantity told by the code. */
  function Shown(a: Engine.Amounts, code: MeterCode): real {
    match code
    case Con | ConTF => a.consumed
    case Share => a.shared
    case Cover => a.distributed
    case Gen | GenTF => a.produced
    case Plus | PlusTF => a.unused
    case CoverTF | Other => 0.0
  }

  lemma ShownIsField(a: Engine.Amounts, code: MeterCode, q: Quantity)
    requires Tells(code, q)
    ensures Shown(a, code) == Field(a, q)
  {
  }

  /** The value that decides a row replaces the reading of its meter in the hourly report: G.01 of a
      consumer as consumed, G.02 as shared, G.03 as distributed, G.01 of a producer as produced, P.01 as
      unused, the weighted codes like the plain ones. */
  lemma ReportTells(z: Zone, db: Db, b: Block, day: int, e: nat, q: Quantity, v: Value)
    requires OnDay(z, b, day) && Suits(MeterOf(db, b), b.energy.data)
    requires Decides(z, b.energy.data, e, q, z.Row(v.from)) && Sole(z, b.energy.data[e].values, v)
    ensures var code, id := b.energy.data[e].code, z.Row(v.from);
            Shown(Reported(StoreBlock(z, db, b).lines, id), code) ==
            Shown(Reported(db.lines, id), code) - Reading(db.lines, id, q, MeterOf(db, b).idx).kwh + v.kwh
  {
    var code, id := b.energy.data[e].code, z.Row(v.from);
    ValueTold(z, db, b, day, e, q, v);
    ReportMoves(z, db, b, day, id, q);
    ShownIsField(Reported(StoreBlock(z, db, b).lines, id), code, q);
    ShownIsField(Reported(db.lines, id), code, q);
  }
}
