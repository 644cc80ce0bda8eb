/** Storing day blocks one after the other, and the laws that let a batch regroup them: blocks of
    different days commute, and metering points may be registered ahead of time. */
module StoreSpec {
  import opened Calendar
  import opened Rows
  import opened Registry
  import opened Regroup

  /** The store of one community: the quarter-hour rows and the meta record. */
  datatype Db = Db(lines: Lines, meta: Meta)

  /** The energy of one metering point for one day. counts, if set, sizes the rows it creates. */
  datatype Block = Block(point: string, energy: Energy, counts: Option<Counts>)

  /** fetchSourceRange: the rows of the days, as Copy reads them. */
  function Fetch(lines: Lines, from: int, until: int): Lines {
    map id | id in lines && from <= id.day <= until :: Copy(lines[id])
  }

  function ImportBlock(z: Zone, lines: Lines, e: Energy, m: Meter, c: Counts): Lines {
    ImportCodes(z, lines, e.data, Organize(e.data), m.dir, m.idx, c.consumers, c.producers)
  }

  ghost function Registered(db: Db, b: Block): Meta {
    Register(db.meta, b.point, DirectionOf(b.energy.data))
  }

  /** The rows StoreEnergyV2 writes for the block. */
  ghost function Written(z: Zone, db: Db, b: Block): Lines {
    var meta := Registered(db, b);
    ImportBlock(z, Fetch(db.lines, z.day(b.energy.start), z.day(b.energy.end)), b.energy, meta[b.point],
                if b.counts.Some? then b.counts.value else Info(meta))
  }

  /** StoreEnergyV2: register, read the day's rows, import, write them back, widen the period. */
  ghost function StoreBlock(z: Zone, db: Db, b: Block): Db {
    Db(db.lines + Written(z, db, b), WidenAt(z, Registered(db, b), b.point, b.energy.start, b.energy.end))
  }

  ghost function StoreAll(z: Zone, db: Db, blocks: seq<Block>): Db
    decreases |blocks|
  {
    if blocks == [] then db else StoreAll(z, StoreBlock(z, db, blocks[0]), blocks[1..])
  }

  lemma {:induction false} StoreAllConcat(z: Zone, db: Db, a: seq<Block>, b: seq<Block>)
    ensures StoreAll(z, db, a + b) == StoreAll(z, StoreAll(z, db, a), b)
    decreases |a|
  {
    if a == [] {
      assert a + b == b;
    } else {
      assert (a + b)[1..] == a[1..] + b;
      StoreAllConcat(z, StoreBlock(z, db, a[0]), a[1..], b);
    }
  }

  /** The block carries at least one meter code that is stored. */
  predicate Coded(b: Block) {
    Organize(b.energy.data) != []
  }

  ghost predicate ValuesOn(z: Zone, data: seq<CodeData>, d: int) {
    forall p, v :: p in Organize(data) && v in data[p.source].values ==> z.day(v.from) == d
  }

  /** The block starts, ends and has its stored values on local day d, as SplitEnergyByDay cuts. */
  ghost predicate OnDay(z: Zone, b: Block, d: int) {
    z.day(b.energy.start) == d && z.day(b.energy.end) == d && ValuesOn(z, b.energy.data, d)
  }

  /** All blocks lie on day d. */
  ghost predicate AllOn(z: Zone, blocks: seq<Block>, d: int) {
    forall b :: b in blocks ==> OnDay(z, b, d)
  }

  // ----- what an import touches -----

  lemma {:induction false} ImportValuesGrow(z: Zone, lines: Lines, vals: seq<Value>, seen: set<RowId>, dir: Direction, k: nat, c: nat, p: nat)
    requires Covered(lines, seen, dir, k)
    ensures lines.Keys <= ImportValues(z, lines, vals, seen, dir, k, c, p).Keys
    decreases |vals|
  {
    if vals != [] {
      ImportValuesGrow(z, ImportValue(z, lines, vals[0], seen, dir, k, c, p), vals[1..], seen + {z.Row(vals[0].from)}, dir, k, c, p);
    }
  }

  /** No import takes a row away. */
  lemma {:induction false} ImportCodesGrow(z: Zone, lines: Lines, data: seq<CodeData>, picks: seq<Pick>, dir: Direction, idx: nat, c: nat, p: nat)
    requires forall q :: q in picks ==> q.source < |data|
    ensures lines.Keys <= ImportCodes(z, lines, data, picks, dir, idx, c, p).Keys
    decreases |picks|
  {
    if picks != [] {
      ImportValuesGrow(z, lines, Sorted(data[picks[0].source].values), {}, dir, Slot(dir, idx, picks[0].delta), c, p);
      ImportCodesGrow(z, ImportPick(z, lines, data, picks[0], dir, idx, c, p), data, picks[1..], dir, idx, c, p);
    }
  }

  lemma {:induction false} ImportValuesKeys(z: Zone, lines: Lines, vals: seq<Value>, seen: set<RowId>, dir: Direction, k: nat, c: nat, p: nat, d: int)
    requires Covered(lines, seen, dir, k)
    requires forall v :: v in vals ==> z.day(v.from) == d
    ensures var r := ImportValues(z, lines, vals, seen, dir, k, c, p);
            && lines.Keys <= r.Keys
            && (forall id :: id in r && id !in lines ==> id.day == d)
            && (forall id :: id in lines && id.day != d ==> r[id] == lines[id])
            && (forall id :: id in lines && Even(lines[id]) ==> Even(r[id]))
    decreases |vals|
  {
    if vals != [] {
      var next := ImportValue(z, lines, vals[0], seen, dir, k, c, p);
      ImportValuesKeys(z, next, vals[1..], seen + {z.Row(vals[0].from)}, dir, k, c, p, d);
    }
  }

  lemma {:induction false} ImportCodesKeys(z: Zone, lines: Lines, data: seq<CodeData>, picks: seq<Pick>, dir: Direction, idx: nat, c: nat, p: nat, d: int)
    requires forall q :: q in picks ==> q.source < |data|
    requires forall q, v :: q in picks && v in data[q.source].values ==> z.day(v.from) == d
    ensures var r := ImportCodes(z, lines, data, picks, dir, idx, c, p);
            && lines.Keys <= r.Keys
            && (forall id :: id in r && id !in lines ==> id.day == d)
            && (forall id :: id in lines && id.day != d ==> r[id] == lines[id])
            && (forall id :: id in lines && Even(lines[id]) ==> Even(r[id]))
    decreases |picks|
  {
    if picks != [] {
      var vals := data[picks[0].source].values;
      SortedIsSort(vals);
      forall v | v in Sorted(vals) ensures v in vals {
        assert v in multiset(Sorted(vals));
      }
      var next := ImportPick(z, lines, data, picks[0], dir, idx, c, p);
      ImportValuesKeys(z, lines, Sorted(vals), {}, dir, Slot(dir, idx, picks[0].delta), c, p, d);
      ImportCodesKeys(z, next, data, picks[1..], dir, idx, c, p, d);
    }
  }

  lemma WrittenOnDay(z: Zone, db: Db, b: Block, d: int)
    requires OnDay(z, b, d)
    ensures var w := Written(z, db, b);
            && Fetch(db.lines, d, d).Keys <= w.Keys
            && forall id :: id in w ==> id.day == d
  {
    var meta := Registered(db, b);
    var c := if b.counts.Some? then b.counts.value else Info(meta);
    ImportCodesKeys(z, Fetch(db.lines, d, d), b.energy.data, Organize(b.energy.data),
                    meta[b.point].dir, meta[b.point].idx, c.consumers, c.producers, d);
  }

  // ----- regrouping by day -----

  /** The block sizes its rows itself and its metering point is registered. */
  predicate Prepared(meta: Meta, b: Block) {
    b.point in meta && b.counts.Some?
  }

  lemma SwapPeriods(z: Zone, meta: Meta, p: string, b1: int, e1: int, q: string, b2: int, e2: int)
    requires z.Valid() && p in meta && q in meta
    requires z.day(b1) == z.day(e1) != z.day(b2) == z.day(e2)
    ensures WidenAt(z, WidenAt(z, meta, p, b1, e1), q, b2, e2) == WidenAt(z, WidenAt(z, meta, q, b2, e2), p, b1, e1)
  {
    if p == q {
      PeriodTwice(z, meta, p, b1, e1, b2, e2);
      PeriodTwice(z, meta, p, b2, e2, b1, e1);
      if z.day(b1) < z.day(b2) {
        WidenCommutes(z, meta[p], b1, e1, b2, e2);
      } else {
        WidenCommutes(z, meta[p], b2, e2, b1, e1);
      }
    } else {
      SwapEntries(meta, p, Widen(z, meta[p], b1, e1), q, Widen(z, meta[q], b2, e2));
    }
  }

  lemma PeriodTwice(z: Zone, meta: Meta, p: string, b1: int, e1: int, b2: int, e2: int)
    requires p in meta
    ensures WidenAt(z, WidenAt(z, meta, p, b1, e1), p, b2, e2) == meta[p := Widen(z, Widen(z, meta[p], b1, e1), b2, e2)]
  {
  }

  lemma SwapEntries(meta: Meta, p: string, m: Meter, q: string, n: Meter)
    requires p != q
    ensures meta[p := m][q := n] == meta[q := n][p := m]
  {
  }

  lemma SwapLines(lines: Lines, v: Lines, w: Lines)
    requires v.Keys !! w.Keys
    ensures (lines + v) + w == (lines + w) + v
  {
  }

  /** A block sees the same rows and the same metering point after a block of another day. */
  lemma WrittenIndependent(z: Zone, db: Db, a: Block, b: Block, d: int, e: int)
    requires OnDay(z, a, d) && OnDay(z, b, e) && d != e
    requires Prepared(db.meta, a) && Prepared(db.meta, b)
    ensures Written(z, StoreBlock(z, db, a), b) == Written(z, db, b)
  {
    WrittenOnDay(z, db, a, d);
    var after := StoreBlock(z, db, a);
    assert Fetch(after.lines, e, e) == Fetch(db.lines, e, e);
    assert after.meta[b.point].dir == db.meta[b.point].dir && after.meta[b.point].idx == db.meta[b.point].idx;
  }

  /** Blocks of different days commute. */
  lemma SwapStores(z: Zone, db: Db, a: Block, b: Block, d: int, e: int)
    requires z.Valid() && OnDay(z, a, d) && OnDay(z, b, e) && d != e
    requires Prepared(db.meta, a) && Prepared(db.meta, b)
    ensures StoreBlock(z, StoreBlock(z, db, a), b) == StoreBlock(z, StoreBlock(z, db, b), a)
  {
    WrittenIndependent(z, db, a, b, d, e);
    WrittenIndependent(z, db, b, a, e, d);
    WrittenOnDay(z, db, a, d);
    WrittenOnDay(z, db, b, e);
    SwapPeriods(z, db.meta, a.point, a.energy.start, a.energy.end, b.point, b.energy.start, b.energy.end);
    SwapLines(db.lines, Written(z, db, a), Written(z, db, b));
  }

  ghost predicate Daily(z: Zone, blocks: seq<Block>) {
    forall b :: b in blocks ==> OnDay(z, b, z.day(b.energy.start))
  }

  /** The day group a block belongs to: the local midnight before its start. */
  function Day(z: Zone): Block -> int {
    (b: Block) => z.DayStart(b.energy.start)
  }

  lemma {:induction false} StoreAllIsFold(z: Zone, db: Db, blocks: seq<Block>)
    ensures StoreAll(z, db, blocks) == Fold((d: Db, b: Block) => StoreBlock(z, d, b), db, blocks)
    decreases |blocks|
  {
    if blocks != [] {
      StoreAllIsFold(z, StoreBlock(z, db, blocks[0]), blocks[1..]);
    }
  }

  lemma StoresCommute(z: Zone, points: set<string>)
    requires z.Valid()
    ensures Commuting((d: Db, b: Block) => StoreBlock(z, d, b), Day(z), (d: Db) => points <= d.meta.Keys,
                      (b: Block) => b.point in points && b.counts.Some? && OnDay(z, b, z.day(b.energy.start)))
  {
    forall db: Db, a: Block, b: Block | points <= db.meta.Keys && a.point in points && a.counts.Some? && b.point in points && b.counts.Some?
      && OnDay(z, a, z.day(a.energy.start)) && OnDay(z, b, z.day(b.energy.start)) && z.DayStart(a.energy.start) != z.DayStart(b.energy.start)
      ensures StoreBlock(z, StoreBlock(z, db, a), b) == StoreBlock(z, StoreBlock(z, db, b), a)
    {
      SwapStores(z, db, a, b, z.day(a.energy.start), z.day(b.energy.start));
    }
  }

  /** Day regrouping: storing the blocks day by day leaves the same rows and periods as storing
      them in the given order. */
  lemma ByDays(z: Zone, db: Db, blocks: seq<Block>, keys: seq<int>)
    requires z.Valid() && Daily(z, blocks) && forall b :: b in blocks ==> Prepared(db.meta, b)
    requires NoRepeat(keys) && forall b :: b in blocks ==> Day(z)(b) in keys
    ensures StoreAll(z, db, Grouped(Day(z), blocks, keys)) == StoreAll(z, db, blocks)
  {
    StoresCommute(z, db.meta.Keys);
    ByKeys((d: Db, b: Block) => StoreBlock(z, d, b), Day(z), (d: Db) => db.meta.Keys <= d.meta.Keys,
           (b: Block) => b.point in db.meta.Keys && b.counts.Some? && OnDay(z, b, z.day(b.energy.start)), db, blocks, keys);
    StoreAllIsFold(z, db, blocks);
    StoreAllIsFold(z, db, Grouped(Day(z), blocks, keys));
  }

  // ----- registering ahead -----

  ghost function RegisterAll(meta: Meta, blocks: seq<Block>): Meta
    decreases |blocks|
  {
    if blocks == [] then meta
    else RegisterAll(Register(meta, blocks[0].point, DirectionOf(blocks[0].energy.data)), blocks[1..])
  }

  lemma {:induction false} RegisterAllKeeps(meta: Meta, blocks: seq<Block>)
    ensures meta.Keys <= RegisterAll(meta, blocks).Keys
    ensures forall n :: n in meta ==> RegisterAll(meta, blocks)[n] == meta[n]
    ensures forall b :: b in blocks ==> b.point in RegisterAll(meta, blocks)
    decreases |blocks|
  {
    if blocks != [] {
      RegisterAllKeeps(Register(meta, blocks[0].point, DirectionOf(blocks[0].energy.data)), blocks[1..]);
    }
  }

  /** Every block with the counts StoreEnergyV2 sees at it when the blocks are stored in order. */
  ghost function Stamped(meta: Meta, blocks: seq<Block>): (r: seq<Block>)
    ensures |r| == |blocks|
    ensures forall i :: 0 <= i < |r| ==> r[i].counts.Some? && r[i] == blocks[i].(counts := r[i].counts)
    decreases |blocks|
  {
    if blocks == [] then []
    else
      var m := Register(meta, blocks[0].point, DirectionOf(blocks[0].energy.data));
      [blocks[0].(counts := Some(Info(m)))] + Stamped(m, blocks[1..])
  }

  lemma {:induction false} WidenBeforeRegistering(z: Zone, meta: Meta, point: string, begin: int, end: int, blocks: seq<Block>)
    requires point in meta
    ensures RegisterAll(WidenAt(z, meta, point, begin, end), blocks) == WidenAt(z, RegisterAll(meta, blocks), point, begin, end)
    ensures Stamped(WidenAt(z, meta, point, begin, end), blocks) == Stamped(meta, blocks)
    decreases |blocks|
  {
    if blocks != [] {
      var b := blocks[0];
      var m := Register(meta, b.point, DirectionOf(b.energy.data));
      RegisterWidenCommute(z, meta, b.point, DirectionOf(b.energy.data), point, begin, end);
      WidenKeepsInfo(z, m, point, begin, end);
      WidenBeforeRegistering(z, m, point, begin, end, blocks[1..]);
    }
  }

  /** Registering every metering point first, with each block keeping the counts of its place,
      changes nothing. */
  lemma {:induction false} RegisterAhead(z: Zone, db: Db, blocks: seq<Block>)
    requires forall b :: b in blocks ==> b.counts.None?
    ensures StoreAll(z, Db(db.lines, RegisterAll(db.meta, blocks)), Stamped(db.meta, blocks)) == StoreAll(z, db, blocks)
    decreases |blocks|
  {
    if blocks != [] {
      var b, rest := blocks[0], blocks[1..];
      assert b in blocks;
      var m := Registered(db, b);
      var all := RegisterAll(m, rest);
      var next := StoreBlock(z, db, b);
      var stamped := b.(counts := Some(Info(m)));
      WidenBeforeRegistering(z, m, b.point, b.energy.start, b.energy.end, rest);
      RegisterAllKeeps(m, rest);
      assert all[b.point] == m[b.point];
      assert StoreBlock(z, Db(db.lines, all), stamped) == Db(next.lines, RegisterAll(next.meta, rest));
      RegisterAhead(z, next, rest);
      assert Stamped(db.meta, blocks)[1..] == Stamped(m, rest);
    }
  }
}
