/** Deleting the raw data of one metering point, with a dry run (store/deleteRawData.go). */
module RawDelete {
  import opened Calendar
  import opened Rows
  import opened Registry
  import opened Storage
  import opened World
  import opened StoreLaws
  import opened Seqs

  const WRITE_BATCH := 500

  /** A slot of the metering point holds a value or a quality. */
  predicate SlotHasData(r: Row, dir: Direction, k: nat) {
    At(Values(r, dir), k, 0.0) != 0.0 || At(Quality(r, dir), k, 0) != 0
  }

  ghost predicate HasData(r: Row, dir: Direction, idx: nat) {
    exists j :: 0 <= j < Width(dir) && SlotHasData(r, dir, Slot(dir, idx, j))
  }

  function Measured(r: Row, dir: Direction, idx: nat): real {
    At(Values(r, dir), Slot(dir, idx, 0), 0.0)
  }

  function With(r: Row, dir: Direction, vals: seq<real>, qov: seq<int>): Row {
    if dir == Consumer then r.(cons := vals, qcons := qov) else r.(prod := vals, qprod := qov)
  }

  predicate Own(dir: Direction, idx: nat, k: int) {
    Slot(dir, idx, 0) <= k < Slot(dir, idx, 0) + Width(dir)
  }

  /** The row without the metering point: its slots zero, everything else and the sizes as before. */
  function Zeroed(r: Row, dir: Direction, idx: nat): Row {
    var vals, qov := Values(r, dir), Quality(r, dir);
    With(r, dir, seq(|vals|, k requires 0 <= k < |vals| => if Own(dir, idx, k) then 0.0 else vals[k]),
         seq(|qov|, k requires 0 <= k < |qov| => if Own(dir, idx, k) then 0 else qov[k]))
  }

  /** inspectMeteringSlots. */
  method InspectSlots(r: Row, dir: Direction, idx: nat, zero: bool) returns (r': Row, measured: real, hadData: bool)
    ensures measured == Measured(r, dir, idx)
    ensures hadData <==> HasData(r, dir, idx)
    ensures r' == if zero then Zeroed(r, dir, idx) else r
  {
    var vals, qov := Values(r, dir), Quality(r, dir);
    var base, width := Slot(dir, idx, 0), Width(dir);
    measured, hadData := 0.0, false;
    if base < |vals| {
      measured := vals[base];
    }
    for j := 0 to width
      invariant |vals| == |Values(r, dir)| && |qov| == |Quality(r, dir)|
      invariant hadData <==> exists i :: 0 <= i < j && SlotHasData(r, dir, Slot(dir, idx, i))
      invariant forall k :: 0 <= k < |vals| ==> vals[k] == if zero && base <= k < base + j then 0.0 else Values(r, dir)[k]
      invariant forall k :: 0 <= k < |qov| ==> qov[k] == if zero && base <= k < base + j then 0 else Quality(r, dir)[k]
    {
      var p := base + j;
      assert p == Slot(dir, idx, j);
      if p < |vals| {
        if vals[p] != 0.0 {
          assert SlotHasData(r, dir, Slot(dir, idx, j));
          hadData := true;
        }
        if zero {
          vals := vals[p := 0.0];
        }
      }
      if p < |qov| {
        if qov[p] != 0 {
          assert SlotHasData(r, dir, Slot(dir, idx, j));
          hadData := true;
        }
        if zero {
          qov := qov[p := 0];
        }
      }
    }
    r' := With(r, dir, vals, qov);
    Replaced(r, dir, idx, zero, vals, qov);
  }

  lemma Replaced(r: Row, dir: Direction, idx: nat, zero: bool, vals: seq<real>, qov: seq<int>)
    requires |vals| == |Values(r, dir)| && |qov| == |Quality(r, dir)|
    requires forall k :: 0 <= k < |vals| ==> vals[k] == if zero && Own(dir, idx, k) then 0.0 else Values(r, dir)[k]
    requires forall k :: 0 <= k < |qov| ==> qov[k] == if zero && Own(dir, idx, k) then 0 else Quality(r, dir)[k]
    ensures With(r, dir, vals, qov) == if zero then Zeroed(r, dir, idx) else r
  {
    var target := if zero then Zeroed(r, dir, idx) else r;
    assert vals == Values(target, dir) && qov == Quality(target, dir);
  }

  // ----- whole scans -----

  /** What to delete: the slots of a metering point in the rows of a time span. time is the instant of
      a row id, if it has one. */
  datatype Job = Job(dir: Direction, idx: nat, from: int, to: int, time: RowId -> Option<int>)
  {
    predicate Covers(id: RowId) {
      time(id).Some? && from <= time(id).value <= to
    }
  }

  ghost predicate Affected(lines: Lines, job: Job, id: RowId) {
    id in lines && job.Covers(id) && HasData(lines[id], job.dir, job.idx)
  }

  ghost function Count(lines: Lines, job: Job, scan: seq<RowId>): nat {
    if scan == [] then 0
    else Count(lines, job, scan[..|scan| - 1]) + if Affected(lines, job, scan[|scan| - 1]) then 1 else 0
  }

  ghost function SumKwh(lines: Lines, job: Job, scan: seq<RowId>): real {
    if scan == [] then 0.0
    else
      var id := scan[|scan| - 1];
      SumKwh(lines, job, scan[..|scan| - 1]) + if Affected(lines, job, id) then Measured(lines[id], job.dir, job.idx) else 0.0
  }

  /** The row after the deletion. */
  ghost function Left(lines: Lines, job: Job, id: RowId): Row
    requires id in lines
  {
    if Affected(lines, job, id) then Zeroed(lines[id], job.dir, job.idx) else lines[id]
  }

  /** The rows after the deletion in the rows done. */
  ghost predicate Deleted(lines0: Lines, lines: Lines, job: Job, done: set<RowId>) {
    lines.Keys == lines0.Keys && forall id :: id in lines0 ==> lines[id] == if id in done then Left(lines0, job, id) else lines0[id]
  }

  function SetOf(ids: seq<RowId>): set<RowId> {
    set id | id in ids
  }

  /** The rows a scan visits: rows of the store, each once. */
  ghost predicate Scans(lines: Lines, scan: seq<RowId>) {
    && (forall n :: 0 <= n < |scan| ==> scan[n] in lines)
    && (forall m, n :: 0 <= m < n < |scan| ==> scan[m] != scan[n])
  }

  lemma CountNext(lines: Lines, job: Job, scan: seq<RowId>, n: nat)
    requires n < |scan|
    ensures Count(lines, job, scan[..n + 1]) == Count(lines, job, scan[..n]) + if Affected(lines, job, scan[n]) then 1 else 0
    ensures SumKwh(lines, job, scan[..n + 1]) == SumKwh(lines, job, scan[..n]) + if Affected(lines, job, scan[n]) then Measured(lines[scan[n]], job.dir, job.idx) else 0.0
  {
    assert scan[..n + 1][..n] == scan[..n];
  }

  /** What a deletion did so far: the rows written and those in the batch. */
  ghost predicate Progress(lines0: Lines, lines: Lines, batch: Lines, job: Job, done: set<RowId>) {
    && batch.Keys <= lines.Keys == lines0.Keys
    && (forall id :: id in batch ==> id in done && batch[id] == Left(lines0, job, id))
    && (forall id :: id in lines0 && id !in batch ==> lines[id] == if id in done then Left(lines0, job, id) else lines0[id])
    && (forall id :: id in lines0 ==> lines[id] == lines0[id] || lines[id] == Left(lines0, job, id))
  }

  lemma ProgressSkip(lines0: Lines, lines: Lines, batch: Lines, job: Job, done: set<RowId>, id: RowId)
    requires Progress(lines0, lines, batch, job, done) && !Affected(lines0, job, id)
    ensures Progress(lines0, lines, batch, job, done + {id})
  {
  }

  lemma ProgressZero(lines0: Lines, lines: Lines, batch: Lines, job: Job, done: set<RowId>, id: RowId)
    requires Progress(lines0, lines, batch, job, done) && Affected(lines0, job, id)
    ensures Progress(lines0, lines, batch[id := Zeroed(lines0[id], job.dir, job.idx)], job, done + {id})
  {
  }

  lemma ProgressFlush(lines0: Lines, lines: Lines, batch: Lines, job: Job, done: set<RowId>)
    requires Progress(lines0, lines, batch, job, done)
    ensures Progress(lines0, lines + batch, map[], job, done)
  {
  }

  /** Some of the rows are zeroed, the others as before: the run can be repeated. */
  ghost predicate Partly(lines0: Lines, lines: Lines, job: Job) {
    lines.Keys == lines0.Keys && forall id :: id in lines0 ==> lines[id] == lines0[id] || lines[id] == Left(lines0, job, id)
  }

  datatype Failure = Fine | InvalidRange | StoreFailed

  /** One row of the scan. */
  method DeleteRow(row: Row, job: Job, id: RowId, dryRun: bool, batch: Lines, ghost lines0: Lines, ghost lines: Lines, ghost done: set<RowId>)
    returns (batch': Lines, hadData: bool, measured: real)
    requires id in lines0 && lines0[id] == row && job.Covers(id) && (!dryRun ==> Progress(lines0, lines, batch, job, done))
    ensures hadData == Affected(lines0, job, id) && measured == Measured(row, job.dir, job.idx)
    ensures dryRun ==> batch' == batch
    ensures !dryRun ==> Progress(lines0, lines, batch', job, done + {id})
  {
    var row';
    row', measured, hadData := InspectSlots(row, job.dir, job.idx, !dryRun);
    batch' := batch;
    if !dryRun {
      if hadData {
        ProgressZero(lines0, lines, batch, job, done, id);
        batch' := batch[id := row'];
      } else {
        ProgressSkip(lines0, lines, batch, job, done, id);
      }
    }
  }

  lemma ProgressPart(lines0: Lines, lines: Lines, batch: Lines, job: Job, done: set<RowId>, written: set<RowId>)
    requires Progress(lines0, lines, batch, job, done)
    ensures Progress(lines0, lines + map id | id in batch && id in written :: batch[id], batch, job, done)
  {
  }

  /** flush; a write that fails may have written any part of the batch. */
  method Flush(w: Context, st: BowStorage, batch: Lines, ghost lines0: Lines, job: Job, ghost done: set<RowId>) returns (ok: bool, batch': Lines)
    requires Progress(lines0, st.lines, batch, job, done)
    modifies w, st`lines
    ensures ok ==> batch' == map[]
    ensures Progress(lines0, st.lines, batch', job, done)
    ensures old(w.faults) <= w.faults && (ok <==> w.faults == old(w.faults))
    ensures old(w.ended) ==> w.ended
  {
    if batch == map[] {
      return true, batch;
    }
    var failed := w.Fails(WriteRows);
    if failed {
      var written: set<RowId> := *;
      ProgressPart(lines0, st.lines, batch, job, done, written);
      st.lines := st.lines + map id | id in batch && id in written :: batch[id];
      return false, batch;
    }
    ProgressFlush(lines0, st.lines, batch, job, done);
    st.lines := st.lines + batch;
    return true, map[];
  }

  /** The loop of DeleteRawDataForMeteringPoint over the rows of the scan, read from a snapshot. */
  method DeleteRows(w: Context, st: BowStorage, job: Job, scan: seq<RowId>, dryRun: bool) returns (failure: Failure, affected: nat, sumKwh: real)
    requires Scans(st.lines, scan)
    modifies w, st`lines
    ensures old(w.faults) <= w.faults && (old(w.ended) ==> w.ended)
    ensures failure != InvalidRange && (failure == Fine <==> w.faults == old(w.faults))
    ensures failure == Fine ==> affected == Count(old(st.lines), job, scan) && sumKwh == SumKwh(old(st.lines), job, scan)
    ensures dryRun ==> st.lines == old(st.lines)
    ensures !dryRun ==> Partly(old(st.lines), st.lines, job)
    ensures !dryRun && failure == Fine ==> Deleted(old(st.lines), st.lines, job, SetOf(scan))
  {
    var snapshot := st.lines;
    var batch: Lines := map[];
    ghost var done: set<RowId> := {};
    failure, affected, sumKwh := Fine, 0, 0.0;
    for n := 0 to |scan|
      invariant failure == Fine && w.faults == old(w.faults) && (old(w.ended) ==> w.ended)
      invariant affected == Count(snapshot, job, scan[..n]) && sumKwh == SumKwh(snapshot, job, scan[..n])
      invariant done == SetOf(scan[..n])
      invariant dryRun ==> st.lines == snapshot && batch == map[]
      invariant !dryRun ==> Progress(snapshot, st.lines, batch, job, done)
    {
      var id := scan[n];
      CountNext(snapshot, job, scan, n);
      assert SetOf(scan[..n + 1]) == done + {id};
      if job.Covers(id) {
        var hadData, measured;
        batch, hadData, measured := DeleteRow(snapshot[id], job, id, dryRun, batch, snapshot, st.lines, done);
        if hadData {
          affected, sumKwh := affected + 1, sumKwh + measured;
        }
        if !dryRun && |batch| >= WRITE_BATCH {
          var ok;
          ok, batch := Flush(w, st, batch, snapshot, job, done + {id});
          if !ok {
            failure := StoreFailed;
            return;
          }
        }
      } else if !dryRun {
        ProgressSkip(snapshot, st.lines, batch, job, done, id);
      }
      done := done + {id};
    }
    assert scan[..|scan|] == scan;
    failure := Finish(w, st, job, scan, dryRun, batch, snapshot, done);
  }

  /** The end of the scan: an error of the iterator, or the last batch. */
  method Finish(w: Context, st: BowStorage, job: Job, scan: seq<RowId>, dryRun: bool, batch: Lines, ghost lines0: Lines, ghost done: set<RowId>) returns (failure: Failure)
    requires dryRun ==> st.lines == lines0 && batch == map[]
    requires !dryRun ==> Progress(lines0, st.lines, batch, job, done)
    modifies w, st`lines
    ensures old(w.faults) <= w.faults && (old(w.ended) ==> w.ended)
    ensures failure != InvalidRange && (failure == Fine <==> w.faults == old(w.faults))
    ensures dryRun ==> st.lines == lines0
    ensures !dryRun ==> Partly(lines0, st.lines, job)
    ensures !dryRun && failure == Fine ==> Deleted(lines0, st.lines, job, done)
  {
    var failed := w.Fails(ReadRows);
    if failed {
      return StoreFailed;
    }
    if !dryRun {
      var ok, _ := Flush(w, st, batch, lines0, job, done);
      return if ok then Fine else StoreFailed;
    }
    return Fine;
  }

  // ----- the rows to scan -----

  /** The instant of a row id lies on its local day. */
  ghost predicate OnTheirDays(z: Zone, time: RowId -> Option<int>) {
    forall id: RowId :: time(id).Some? ==> z.day(time(id).value) == id.day
  }

  predicate InSpan(z: Zone, from: int, to: int, id: RowId) {
    z.day(from) - 1 <= id.day <= z.day(to) + 1
  }

  /** The order of the row keys. */
  predicate Before(a: RowId, b: RowId) {
    a.day < b.day || (a.day == b.day && a.slot < b.slot)
  }

  ghost predicate InKeyOrder(scan: seq<RowId>) {
    forall m, n :: 0 <= m < n < |scan| ==> Before(scan[m], scan[n])
  }

  /** The rows from the day before the span to the day after it, in key order. */
  ghost predicate ScansSpan(z: Zone, lines: Lines, from: int, to: int, scan: seq<RowId>) {
    InKeyOrder(scan) && forall id :: id in scan <==> id in lines && InSpan(z, from, to, id)
  }

  /** GetLineRange over those days. */
  method ScanSpan(z: Zone, lines: Lines, from: int, to: int) returns (scan: seq<RowId>)
    ensures ScansSpan(z, lines, from, to, scan)
  {
    scan := [];
    var rest := set id | id in lines && InSpan(z, from, to, id);
    while rest != {}
      invariant InKeyOrder(scan) && forall a, b :: a in scan && b in rest ==> Before(a, b)
      invariant forall id :: id in scan || id in rest <==> id in lines && InSpan(z, from, to, id)
      decreases rest
    {
      var id := FirstKey(rest);
      KeyOrderMore(scan, id);
      scan := scan + [id];
      rest := rest - {id};
    }
  }

  lemma KeyOrderMore(scan: seq<RowId>, id: RowId)
    requires InKeyOrder(scan) && forall a :: a in scan ==> Before(a, id)
    ensures InKeyOrder(scan + [id])
  {
    assert forall m :: 0 <= m < |scan| ==> scan[m] in scan;
  }

  method FirstKey(ids: set<RowId>) returns (first: RowId)
    requires ids != {}
    ensures first in ids && forall id :: id in ids && id != first ==> Before(first, id)
  {
    first :| first in ids;
    var rest := ids - {first};
    while rest != {}
      invariant first in ids && rest <= ids && first !in rest
      invariant forall id :: id in ids && id !in rest && id != first ==> Before(first, id)
      decreases rest
    {
      var id :| id in rest;
      if Before(id, first) {
        first := id;
      }
      rest := rest - {id};
    }
  }

  lemma {:induction false} OneOrder(a: seq<RowId>, b: seq<RowId>)
    requires InKeyOrder(a) && InKeyOrder(b) && forall id :: id in a <==> id in b
    ensures a == b
  {
    assert b != [] ==> b[0] in b;
    if a != [] {
      assert a[|a| - 1] in a;
      var init := a[..|a| - 1];
      SameLast(a, b);
      forall id ensures id in init <==> id in b[..|b| - 1] {
        InInit(a, id);
        InInit(b, id);
      }
      OneOrder(init, b[..|b| - 1]);
      InitLast(a);
      InitLast(b);
    }
  }

  lemma SameLast(a: seq<RowId>, b: seq<RowId>)
    requires InKeyOrder(a) && InKeyOrder(b) && a != [] && b != [] && forall id :: id in a <==> id in b
    ensures a[|a| - 1] == b[|b| - 1]
  {
    assert a[|a| - 1] in b && b[|b| - 1] in a;
    var i :| 0 <= i < |b| && b[i] == a[|a| - 1];
    var j :| 0 <= j < |a| && a[j] == b[|b| - 1];
  }

  lemma InInit(a: seq<RowId>, id: RowId)
    requires InKeyOrder(a) && a != []
    ensures id in a[..|a| - 1] <==> id in a && id != a[|a| - 1]
  {
    if id in a && id != a[|a| - 1] {
      var i :| 0 <= i < |a| && a[i] == id;
      assert a[..|a| - 1][i] == id;
    }
  }

  /** There is one scan of the span, so a dry run and an execute run sum in the same order. */
  lemma OneScan(z: Zone, lines: Lines, from: int, to: int, a: seq<RowId>, b: seq<RowId>)
    requires ScansSpan(z, lines, from, to, a) && ScansSpan(z, lines, from, to, b)
    ensures a == b && Scans(lines, a)
  {
    OneOrder(a, b);
    assert forall n :: 0 <= n < |a| ==> a[n] in a;
  }

  /** The scan reaches every row of the span. */
  lemma SpanCovered(z: Zone, lines: Lines, job: Job, scan: seq<RowId>, id: RowId)
    requires z.Valid() && OnTheirDays(z, job.time) && ScansSpan(z, lines, job.from, job.to, scan) && id in lines && job.Covers(id)
    ensures id in scan
  {
    var t := job.time(id).value;
    DayMonotone(z, job.from, t);
    DayMonotone(z, t, job.to);
  }

  /** The rows of the whole store from which something is deleted. */
  ghost function AffectedRows(lines: Lines, job: Job): set<RowId> {
    set id | id in lines && Affected(lines, job, id)
  }

  ghost function AffectedIn(lines: Lines, job: Job, scan: seq<RowId>): set<RowId> {
    set id | id in scan && Affected(lines, job, id)
  }

  lemma AffectedNext(lines: Lines, job: Job, init: seq<RowId>, last: RowId)
    requires last !in init
    ensures |AffectedIn(lines, job, init + [last])| == |AffectedIn(lines, job, init)| + if Affected(lines, job, last) then 1 else 0
  {
    assert AffectedIn(lines, job, init + [last]) == AffectedIn(lines, job, init) + if Affected(lines, job, last) then {last} else {};
  }

  lemma {:induction false} CountIsSize(lines: Lines, job: Job, scan: seq<RowId>)
    requires Scans(lines, scan)
    ensures Count(lines, job, scan) == |AffectedIn(lines, job, scan)|
  {
    if scan == [] {
      assert AffectedIn(lines, job, scan) == {};
    } else {
      var init, last := scan[..|scan| - 1], scan[|scan| - 1];
      CountIsSize(lines, job, init);
      AffectedNext(lines, job, init, last);
      InitLast(scan);
    }
  }

  /** Scanning the span is as good as scanning the store. */
  lemma WholeStore(z: Zone, lines0: Lines, lines: Lines, job: Job, scan: seq<RowId>)
    requires z.Valid() && OnTheirDays(z, job.time) && ScansSpan(z, lines0, job.from, job.to, scan)
    ensures Count(lines0, job, scan) == |AffectedRows(lines0, job)|
    ensures Deleted(lines0, lines, job, SetOf(scan)) ==> Deleted(lines0, lines, job, lines0.Keys)
  {
    forall id | id in lines0 && Affected(lines0, job, id) ensures id in scan {
      SpanCovered(z, lines0, job, scan, id);
    }
    OneScan(z, lines0, job.from, job.to, scan, scan);
    CountIsSize(lines0, job, scan);
    assert AffectedRows(lines0, job) == AffectedIn(lines0, job, scan);
  }

  /** DeleteRawDataForMeteringPoint: an unknown metering point is nothing to delete. The dry run counts
      and sums what an execute run removes, over the whole store. */
  method DeleteRawData(w: Context, st: BowStorage, name: string, from: int, to: int, time: RowId -> Option<int>, dryRun: bool)
    returns (failure: Failure, affected: nat, sumKwh: real, ghost scan: seq<RowId>)
    requires st.z.Valid() && OnTheirDays(st.z, time)
    modifies w, st`lines
    ensures old(w.faults) <= w.faults
    ensures from > to <==> failure == InvalidRange
    ensures from <= to ==> (failure == Fine <==> w.faults == old(w.faults))
    ensures from > to || name !in st.meta || dryRun ==> st.lines == old(st.lines)
    ensures name !in st.meta ==> affected == 0 && sumKwh == 0.0
    ensures name in st.meta && failure == Fine ==>
            (var job := Job(st.meta[name].dir, st.meta[name].idx, from, to, time);
             && affected == |AffectedRows(old(st.lines), job)|
             && ScansSpan(st.z, old(st.lines), from, to, scan) && sumKwh == SumKwh(old(st.lines), job, scan)
             && (!dryRun ==> Deleted(old(st.lines), st.lines, job, old(st.lines).Keys)))
    ensures name in st.meta ==> Partly(old(st.lines), st.lines, Job(st.meta[name].dir, st.meta[name].idx, from, to, time))
  {
    affected, sumKwh, scan := 0, 0.0, [];
    if from > to {
      return InvalidRange, affected, sumKwh, scan;
    }
    var failed := w.Fails(Opening);
    if failed {
      return StoreFailed, affected, sumKwh, scan;
    }
    if name !in st.meta {
      return Fine, affected, sumKwh, scan;
    }
    failure, affected, sumKwh, scan := DeleteSpan(w, st, Job(st.meta[name].dir, st.meta[name].idx, from, to, time), dryRun);
  }

  method DeleteSpan(w: Context, st: BowStorage, job: Job, dryRun: bool) returns (failure: Failure, affected: nat, sumKwh: real, ghost scan: seq<RowId>)
    requires st.z.Valid() && OnTheirDays(st.z, job.time)
    modifies w, st`lines
    ensures old(w.faults) <= w.faults && failure != InvalidRange && (failure == Fine <==> w.faults == old(w.faults))
    ensures dryRun ==> st.lines == old(st.lines)
    ensures Partly(old(st.lines), st.lines, job)
    ensures failure == Fine ==> affected == |AffectedRows(old(st.lines), job)| && ScansSpan(st.z, old(st.lines), job.from, job.to, scan)
    ensures failure == Fine ==> sumKwh == SumKwh(old(st.lines), job, scan) && (!dryRun ==> Deleted(old(st.lines), st.lines, job, old(st.lines).Keys))
  {
    var rows := ScanSpan(st.z, st.lines, job.from, job.to);
    scan := rows;
    OneScan(st.z, st.lines, job.from, job.to, rows, rows);
    ghost var lines0 := st.lines;
    failure, affected, sumKwh := DeleteRows(w, st, job, rows, dryRun);
    WholeStore(st.z, lines0, st.lines, job, scan);
  }

  // ----- what a deletion leaves -----

  lemma ZeroedEmpty(r: Row, dir: Direction, idx: nat)
    ensures !HasData(Zeroed(r, dir, idx), dir, idx) && Measured(Zeroed(r, dir, idx), dir, idx) == 0.0
  {
  }

  /** A second run over the same rows finds nothing. */
  lemma {:induction false} SecondRun(lines0: Lines, lines: Lines, job: Job, scan: seq<RowId>, all: set<RowId>)
    requires Deleted(lines0, lines, job, all) && SetOf(scan) <= all
    ensures Count(lines, job, scan) == 0 && SumKwh(lines, job, scan) == 0.0
    decreases |scan|
  {
    if scan != [] {
      var id := scan[|scan| - 1];
      assert id in SetOf(scan);
      assert forall x :: x in scan[..|scan| - 1] ==> x in SetOf(scan);
      SecondRun(lines0, lines, job, scan[..|scan| - 1], all);
      if id in lines0 {
        ZeroedEmpty(lines0[id], job.dir, job.idx);
      }
    }
  }

  /** No cell of another metering point changes, in any row. */
  lemma OthersKept(lines0: Lines, lines: Lines, job: Job, done: set<RowId>, id: RowId, dir: Direction, idx: nat, delta: nat)
    requires Deleted(lines0, lines, job, done) && (dir != job.dir || idx != job.idx) && delta < Width(dir)
    ensures CellOf(lines, id, dir, Slot(dir, idx, delta)) == CellOf(lines0, id, dir, Slot(dir, idx, delta))
  {
    assert !(dir == job.dir && Own(job.dir, job.idx, Slot(dir, idx, delta)));
  }

  /** The metering point's own cells: zero in the rows of the span, unchanged outside of it. */
  lemma OwnCells(lines0: Lines, lines: Lines, job: Job, done: set<RowId>, id: RowId, delta: nat)
    requires Deleted(lines0, lines, job, done) && delta < Width(job.dir)
    ensures var k := Slot(job.dir, job.idx, delta);
            CellOf(lines, id, job.dir, k) == if id in done && job.Covers(id) then Cell(0.0, 0) else CellOf(lines0, id, job.dir, k)
  {
    var k := Slot(job.dir, job.idx, delta);
    if id in lines0 && id in done && job.Covers(id) && !HasData(lines0[id], job.dir, job.idx) {
      assert !SlotHasData(lines0[id], job.dir, Slot(job.dir, job.idx, delta));
    }
  }

  /** After an execute run no row of the span holds data of the metering point. */
  lemma NothingKept(lines0: Lines, lines: Lines, job: Job, id: RowId)
    requires Deleted(lines0, lines, job, lines0.Keys) && id in lines && job.Covers(id)
    ensures !HasData(lines[id], job.dir, job.idx)
  {
    ZeroedEmpty(lines0[id], job.dir, job.idx);
  }
}
