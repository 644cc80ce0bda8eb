/** The store of one community as an object: StoreEnergyV2 block by block, and StoreDayBatch, which
    must leave the same rows and meta with one read and one write
    (store/importFunctions.go, store/importBatch.go, store/rawDataHelper.go). */
module Storage {
  import opened Calendar
  import opened Rows
  import opened Registry
  import opened StoreSpec
  import opened StoreOrder
  import opened DayBatch
  import opened DayArrays
  import opened World

  // ----- meta record in memory -----

  /** metaInfoOf counts in one pass over the record. */
  method MetaInfoOf(meta: Meta) returns (info: Counts)
    ensures info == Info(meta)
  {
    info := Counts(0, 0, -1, -1);
    var rest := meta.Keys;
    while rest != {}
      invariant rest <= meta.Keys
      invariant info == Info(meta - rest)
      decreases |rest|
    {
      var n :| n in rest;
      ghost var done := meta - rest;
      var m := meta[n];
      match m.dir {
        case Consumer =>
          info := info.(consumers := info.consumers + 1, maxConsumer := if info.maxConsumer < m.idx then m.idx else info.maxConsumer);
        case Producer =>
          info := info.(producers := info.producers + 1, maxProducer := if info.maxProducer < m.idx then m.idx else info.maxProducer);
      }
      rest := rest - {n};
      assert meta - rest == done[n := m];
      CountOne(done, n, m, Consumer);
      CountOne(done, n, m, Producer);
    }
    assert meta - rest == meta;
  }

  lemma CountOne(done: Meta, n: string, m: Meter, d: Direction)
    requires n !in done
    ensures var r := done[n := m];
            && |Names(r, d)| == |Names(done, d)| + (if m.dir == d then 1 else 0)
            && MaxIdx(r, d) == if m.dir == d && MaxIdx(done, d) < m.idx then m.idx else MaxIdx(done, d)
  {
    var r := done[n := m];
    MaxIdxMax(done, d);
    if m.dir == d {
      assert Names(r, d) == Names(done, d) + {n};
      assert n in Names(r, d);
      MaxIdxIs(r, d, if MaxIdx(done, d) < m.idx then m.idx else MaxIdx(done, d));
    } else {
      assert Names(r, d) == Names(done, d);
      MaxIdxIs(r, d, MaxIdx(done, d));
    }
  }

  lemma RegisterWith(meta: Meta, point: string, dir: Direction)
    requires point !in meta
    ensures var c := Bumped(Info(meta), dir);
            var k := if dir == Consumer then c.maxConsumer else c.maxProducer;
            && Info(Register(meta, point, dir)) == c
            && 0 <= k
            && Register(meta, point, dir) == meta[point := Meter(|meta|, k, dir, None, None)]
  {
    RegisterInfo(meta, point, dir);
  }

  /** registerMeteringPoint with the counts kept beside the record. */
  method RegisterMeteringPoint(meta: Meta, info: Counts, point: string, dir: Direction) returns (meta': Meta, info': Counts, modified: bool)
    requires info == Info(meta)
    ensures meta' == Register(meta, point, dir) && info' == Info(meta')
    ensures modified == (point !in meta)
  {
    meta', info', modified := meta, info, false;
    if point !in meta {
      RegisterWith(meta, point, dir);
      match dir {
        case Consumer =>
          info' := info.(consumers := info.consumers + 1, maxConsumer := info.maxConsumer + 1);
          meta' := meta[point := Meter(|meta|, info'.maxConsumer, Consumer, None, None)];
        case Producer =>
          info' := info.(producers := info.producers + 1, maxProducer := info.maxProducer + 1);
          meta' := meta[point := Meter(|meta|, info'.maxProducer, Producer, None, None)];
      }
      modified := true;
    }
  }

  // ----- rows in memory -----

  /** One meter code of importEnergyValuesV2: the first value of a row id is assigned, a repeated
      one added. */
  method ImportCodeValues(z: Zone, lines: Lines, vals: seq<Value>, dir: Direction, k: nat, c: Counts) returns (r: Lines)
    ensures r == ImportValues(z, lines, vals, {}, dir, k, c.consumers, c.producers)
  {
    r := lines;
    var seen: set<RowId> := {};
    var j := 0;
    while j < |vals|
      invariant 0 <= j <= |vals|
      invariant Covered(r, seen, dir, k)
      invariant ImportValues(z, r, vals[j..], seen, dir, k, c.consumers, c.producers)
             == ImportValues(z, lines, vals, {}, dir, k, c.consumers, c.producers)
    {
      assert vals[j..][1..] == vals[j + 1..];
      r := ImportOneValue(z, r, vals[j], seen, dir, k, c);
      seen := seen + {z.Row(vals[j].from)};
      j := j + 1;
    }
  }

  /** add- or sumEnergyValueToResource in the row of the value. */
  method ImportOneValue(z: Zone, lines: Lines, v: Value, seen: set<RowId>, dir: Direction, k: nat, c: Counts) returns (r: Lines)
    requires Covered(lines, seen, dir, k)
    ensures r == ImportValue(z, lines, v, seen, dir, k, c.consumers, c.producers)
  {
    var id := z.Row(v.from);
    var row := if id in lines then lines[id] else MakeRow(c.consumers, c.producers);
    if id in seen {
      row := Accumulate(row, dir, k, v);
    } else {
      row := Assign(row, dir, k, v);
    }
    r := lines[id := row];
  }

  /** importEnergyValuesV2 over the rows in memory. */
  method ImportEnergyValues(z: Zone, lines: Lines, e: Energy, m: Meter, c: Counts) returns (r: Lines)
    ensures r == ImportBlock(z, lines, e, m, c)
  {
    r := ImportPicks(z, lines, e.data, Organize(e.data), m, c);
  }

  method ImportPicks(z: Zone, lines: Lines, data: seq<CodeData>, picks: seq<Pick>, m: Meter, c: Counts) returns (r: Lines)
    requires forall q :: q in picks ==> q.source < |data|
    ensures r == ImportCodes(z, lines, data, picks, m.dir, m.idx, c.consumers, c.producers)
  {
    r := lines;
    var i := 0;
    while i < |picks|
      invariant 0 <= i <= |picks|
      invariant forall q :: q in picks[i..] ==> q.source < |data|
      invariant ImportCodes(z, r, data, picks[i..], m.dir, m.idx, c.consumers, c.producers)
             == ImportCodes(z, lines, data, picks, m.dir, m.idx, c.consumers, c.producers)
    {
      assert picks[i] in picks[i..];
      assert picks[i..][1..] == picks[i + 1..];
      r := ImportCodeValues(z, r, Sorted(data[picks[i].source].values), m.dir, Slot(m.dir, m.idx, picks[i].delta), c);
      i := i + 1;
    }
  }

  /** evenCreatedRows: the quality arrays of rows created earlier get the length Copy would give. */
  method EvenCreatedRows(lines: Lines, created: set<RowId>, from: int, until: int) returns (r: Lines)
    requires created <= lines.Keys
    ensures r.Keys == lines.Keys
    ensures forall id :: id in lines ==> r[id] == if id in created && from <= id.day <= until then Copy(lines[id]) else lines[id]
  {
    r := lines;
    var rest := created;
    while rest != {}
      invariant rest <= created && r.Keys == lines.Keys
      invariant forall id :: id in lines ==>
        r[id] == if id in created - rest && from <= id.day <= until then Copy(lines[id]) else lines[id]
      decreases |rest|
    {
      var id :| id in rest;
      if from <= id.day <= until {
        r := r[id := Copy(r[id])];
      }
      rest := rest - {id};
    }
  }

  /** The span of the days to read. */
  method DaySpan(z: Zone, blocks: seq<Block>, ghost d: int) returns (begin: int, end: int)
    requires blocks != []
    ensures AllOn(z, blocks, d) ==> z.day(begin) == d && z.day(end) == d
  {
    assert blocks[0] in blocks;
    begin, end := blocks[0].energy.start, blocks[0].energy.end;
    for i := 1 to |blocks|
      invariant AllOn(z, blocks, d) ==> z.day(begin) == d && z.day(end) == d
    {
      assert blocks[i] in blocks;
      if blocks[i].energy.start < begin {
        begin := blocks[i].energy.start;
      }
      if end < blocks[i].energy.end {
        end := blocks[i].energy.end;
      }
    }
  }

  lemma WrittenBy(z: Zone, db: StoreSpec.Db, b: Block, m: Meter, c: Counts, evened: Lines, d: int)
    requires OnDay(z, b, d) && evened == Fetch(db.lines, d, d)
    requires SameMeter(Registered(db, b)[b.point], m)
    requires c == if b.counts.Some? then b.counts.value else Info(Registered(db, b))
    ensures ImportBlock(z, evened, b.energy, m, c) == Written(z, db, b)
  {
  }

  /** The loop of StoreDayBatch before block i, for blocks of day d: the rows in memory follow the store
      db after block by block storing, and are those of a batch of the blocks so far. */
  ghost predicate Follows(z: Zone, start: StoreSpec.Db, blocks: seq<Block>, i: nat, d: int, db: StoreSpec.Db,
                          resources: Lines, fetched: set<RowId>, created: set<RowId>, exact: bool)
    requires i <= |blocks|
  {
    && After(z, start, blocks, i, db)
    && Tracks(db, start.lines, resources, fetched, created, d, exact)
    && fetched == Fetch(start.lines, d, d).Keys
    && start.lines + resources == BatchLines(z, start, blocks[..i], d)
  }

  /** The same, if the blocks lie on day d. */
  ghost predicate FollowsOn(z: Zone, start: StoreSpec.Db, blocks: seq<Block>, i: nat, d: int, db: StoreSpec.Db,
                            resources: Lines, fetched: set<RowId>, created: set<RowId>, exact: bool)
    requires i <= |blocks|
  {
    AllOn(z, blocks, d) ==> Follows(z, start, blocks, i, d, db, resources, fetched, created, exact)
  }

  lemma FollowsEnd(z: Zone, start: StoreSpec.Db, blocks: seq<Block>, d: int, db: StoreSpec.Db,
                   resources: Lines, fetched: set<RowId>, created: set<RowId>, exact: bool)
    requires FollowsOn(z, start, blocks, |blocks|, d, db, resources, fetched, created, exact)
    ensures AllOn(z, blocks, d) ==> start.lines + resources == BatchLines(z, start, blocks, d)
  {
    assert blocks[..|blocks|] == blocks;
  }

  /** Block by block the counts after its registration. */
  ghost predicate CountsAre(meta: Meta, blocks: seq<Block>, counts: seq<Counts>) {
    |counts| == |blocks| && forall i :: 0 <= i < |blocks| ==> counts[i] == Info(RegisterAll(meta, blocks[..i + 1]))
  }

  lemma FollowsStart(z: Zone, start: StoreSpec.Db, blocks: seq<Block>, d: int)
    ensures var r := Fetch(start.lines, d, d); Follows(z, start, blocks, 0, d, start, r, r.Keys, {}, false)
  {
    TracksStart(start, d);
    AfterNone(z, start, blocks);
  }

  lemma FollowsSkip(z: Zone, start: StoreSpec.Db, blocks: seq<Block>, i: nat, d: int, db: StoreSpec.Db,
                    resources: Lines, fetched: set<RowId>, created: set<RowId>, exact: bool)
    requires i < |blocks| && OnDay(z, blocks[i], d) && !Coded(blocks[i])
    requires Follows(z, start, blocks, i, d, db, resources, fetched, created, exact)
    ensures Follows(z, start, blocks, i + 1, d, StoreBlock(z, db, blocks[i]), resources, fetched, created, false)
  {
    AfterNext(z, start, blocks, i, db);
    TracksSkip(z, db, blocks[i], start.lines, resources, fetched, created, d, exact);
    BatchLinesSkip(z, start, blocks, i, d);
  }

  lemma FollowsCoded(z: Zone, start: StoreSpec.Db, blocks: seq<Block>, i: nat, d: int, db: StoreSpec.Db,
                     resources': Lines, fetched: set<RowId>, created': set<RowId>)
    requires i < |blocks| && Coded(blocks[i]) && After(z, start, blocks, i, db)
    requires Tracks(StoreBlock(z, db, blocks[i]), start.lines, resources', fetched, created', d, true)
    requires fetched == Fetch(start.lines, d, d).Keys
    ensures Follows(z, start, blocks, i + 1, d, StoreBlock(z, db, blocks[i]), resources', fetched, created', true)
  {
    AfterNext(z, start, blocks, i, db);
    CodedLines(start, StoreBlock(z, db, blocks[i]), resources', fetched, created', d);
    BatchLinesCoded(z, start, blocks, i, d);
  }

  lemma CodedLines(start: StoreSpec.Db, db: StoreSpec.Db, resources: Lines, fetched: set<RowId>, created: set<RowId>, d: int)
    requires Tracks(db, start.lines, resources, fetched, created, d, true) && fetched == Fetch(start.lines, d, d).Keys
    ensures start.lines + resources == db.lines
  {
    assert forall id :: id in start.lines && id.day == d ==> id in fetched;
    TracksEnd(db, start.lines, resources, fetched, created, d, true);
  }

  /** The loop of StoreDayBatch: every block into the rows in memory, which are read once. */
  method ImportDay(z: Zone, ghost start: StoreSpec.Db, meta: Meta, counts: seq<Counts>, blocks: seq<Block>, stored: Lines, ghost d: int)
    returns (resources: Lines)
    requires meta == RegisterAll(start.meta, blocks)
    requires CountsAre(start.meta, blocks, counts)
    requires AllOn(z, blocks, d) ==> stored == Fetch(start.lines, d, d)
    ensures AllOn(z, blocks, d) ==> start.lines + resources == BatchLines(z, start, blocks, d)
  {
    resources := stored;
    var fetched := resources.Keys;
    var created: set<RowId> := {};
    FollowsStart(z, start, blocks, d);
    ghost var exact, db := false, start;
    for i := 0 to |blocks|
      invariant created <= resources.Keys
      invariant FollowsOn(z, start, blocks, i, d, db, resources, fetched, created, exact)
    {
      resources, created, exact := ImportNext(z, start, meta, counts, blocks, i, db, resources, fetched, created, d, exact);
      db := StoreBlock(z, db, blocks[i]);
    }
    FollowsEnd(z, start, blocks, d, db, resources, fetched, created, exact);
  }

  /** One turn of the loop; a block without a stored meter code is skipped. */
  method ImportNext(z: Zone, ghost start: StoreSpec.Db, meta: Meta, counts: seq<Counts>, blocks: seq<Block>, i: nat,
                    ghost db: StoreSpec.Db, resources: Lines, fetched: set<RowId>, created: set<RowId>, ghost d: int, ghost exact: bool)
    returns (resources': Lines, created': set<RowId>, ghost exact': bool)
    requires i < |blocks| && created <= resources.Keys
    requires meta == RegisterAll(start.meta, blocks) && CountsAre(start.meta, blocks, counts)
    requires FollowsOn(z, start, blocks, i, d, db, resources, fetched, created, exact)
    ensures created' <= resources'.Keys
    ensures FollowsOn(z, start, blocks, i + 1, d, StoreBlock(z, db, blocks[i]), resources', fetched, created', exact')
  {
    var b := blocks[i];
    assert b in blocks;
    exact' := Coded(b);
    if !Coded(b) {
      if AllOn(z, blocks, d) {
        FollowsSkip(z, start, blocks, i, d, db, resources, fetched, created, exact);
      }
      resources', created' := resources, created;
    } else {
      MetaAtBlock(z, start, blocks, i);
      ghost var on := AllOn(z, blocks, d);
      resources', created' := ImportOneBlock(z, db, b, meta[b.point], if b.counts.Some? then b.counts.value else counts[i],
                                        start.lines, resources, fetched, created, d, exact, on);
      if on {
        FollowsCoded(z, start, blocks, i, d, db, resources', fetched, created');
      }
    }
  }

  /** A coded block; on says that the batch is of one day. */
  method ImportOneBlock(z: Zone, ghost db: StoreSpec.Db, b: Block, m: Meter, c: Counts, ghost stored: Lines,
                   resources: Lines, fetched: set<RowId>, created: set<RowId>, ghost d: int, ghost exact: bool, ghost on: bool)
    returns (resources': Lines, created': set<RowId>)
    requires created <= resources.Keys
    requires on ==> OnDay(z, b, d) && Tracks(db, stored, resources, fetched, created, d, exact)
    requires on ==> SameMeter(Registered(db, b)[b.point], m) && c == if b.counts.Some? then b.counts.value else Info(Registered(db, b))
    ensures created' <= resources'.Keys
    ensures on ==> Tracks(StoreBlock(z, db, b), stored, resources', fetched, created', d, true)
  {
    var evened := EvenCreatedRows(resources, created, z.day(b.energy.start), z.day(b.energy.end));
    resources' := ImportEnergyValues(z, evened, b.energy, m, c);
    ImportCodesGrow(z, evened, b.energy.data, Organize(b.energy.data), m.dir, m.idx, c.consumers, c.producers);
    created' := created;
    if |resources'| > |resources| {
      created' := resources'.Keys - fetched;
    } else {
      SameCount(resources.Keys, resources'.Keys);
    }
    if on {
      TracksEvened(db, stored, resources, fetched, created, d, exact, evened);
      WrittenBy(z, db, b, m, c, evened, d);
      WrittenOnDay(z, db, b, d);
      WrittenEven(z, db, b, d);
      TracksImport(db, resources', StoreBlock(z, db, b).meta, stored, resources, fetched, created, d, exact);
    }
  }

  ghost function Logged(blocks: seq<Block>): seq<Attempt> {
    seq(|blocks|, i requires 0 <= i < |blocks| => Done(blocks[i].point, blocks[i].energy))
  }

  /** The rows read back as after storing block by block, and are the same arrays, lengths included,
      exactly if the last coded block comes last or creates only even rows. */
  ghost predicate RowsStored(z: Zone, db0: StoreSpec.Db, lines: Lines, blocks: seq<Block>) {
    && SameReading(lines, StoreAll(z, db0, blocks).lines)
    && (lines == StoreAll(z, db0, blocks).lines <==> SameArrays(z, db0, blocks))
  }

  /** The day is stored: the record as after block by block storing, and for blocks of one day the rows. */
  ghost predicate DayStored(z: Zone, db0: StoreSpec.Db, db: StoreSpec.Db, blocks: seq<Block>) {
    && db.meta == StoreAll(z, db0, blocks).meta
    && (OneDay(z, blocks) ==> RowsStored(z, db0, db.lines, blocks))
  }

  ghost predicate OneDay(z: Zone, blocks: seq<Block>) {
    blocks != [] ==> AllOn(z, blocks, z.day(blocks[0].energy.start))
  }

  lemma BatchStored(z: Zone, db0: StoreSpec.Db, lines: Lines, blocks: seq<Block>, d: int)
    requires blocks != [] && AllOn(z, blocks, d) && lines == BatchLines(z, db0, blocks, d)
    ensures RowsStored(z, db0, lines, blocks)
  {
    BatchReading(z, db0, blocks, d);
    BatchExact(z, db0, blocks, d);
  }

  /** The loop of registerBlocks: per block the counts after its metering point was registered. */
  method RegisterEach(meta: Meta, blocks: seq<Block>) returns (record: Meta, counts: seq<Counts>, modified: bool)
    ensures record == RegisterAll(meta, blocks) && (!modified ==> record == meta)
    ensures |counts| == |blocks| && forall i :: 0 <= i < |blocks| ==> counts[i] == Info(RegisterAll(meta, blocks[..i + 1]))
  {
    record, counts, modified := meta, [], false;
    var info := MetaInfoOf(record);
    for i := 0 to |blocks|
      invariant |counts| == i && record == RegisterAll(meta, blocks[..i]) && info == Info(record)
      invariant !modified ==> record == meta
      invariant CountsSoFar(meta, blocks, counts)
    {
      var changed;
      RegisterAllNext(meta, blocks, i);
      record, info, changed := RegisterMeteringPoint(record, info, blocks[i].point, DirectionOf(blocks[i].energy.data));
      modified := modified || changed;
      CountsNext(meta, blocks, counts, info);
      counts := counts + [info];
    }
    assert blocks[..|blocks|] == blocks;
  }

  ghost predicate CountsSoFar(meta: Meta, blocks: seq<Block>, counts: seq<Counts>) {
    |counts| <= |blocks| && forall j :: 0 <= j < |counts| ==> counts[j] == Info(RegisterAll(meta, blocks[..j + 1]))
  }

  lemma CountsNext(meta: Meta, blocks: seq<Block>, counts: seq<Counts>, info: Counts)
    requires |counts| < |blocks| && CountsSoFar(meta, blocks, counts) && info == Info(RegisterAll(meta, blocks[..|counts| + 1]))
    ensures CountsSoFar(meta, blocks, counts + [info])
  {
  }

  // ----- the store -----

  lemma StoreBlockIs(z: Zone, db: StoreSpec.Db, b: Block, meta: Meta, info: Counts, resources: Lines)
    requires b.counts.None? && meta == Registered(db, b) && info == Info(meta)
    requires resources == ImportBlock(z, Fetch(db.lines, z.day(b.energy.start), z.day(b.energy.end)), b.energy, meta[b.point], info)
    ensures StoreBlock(z, db, b)
         == StoreSpec.Db.Db(db.lines + resources, meta[b.point := Widen(z, meta[b.point], b.energy.start, b.energy.end)])
  {
  }

  lemma ImportNothing(z: Zone, lines: Lines, e: Energy, m: Meter, c: Counts)
    requires Organize(e.data) == []
    ensures ImportBlock(z, lines, e, m, c) == lines
  {
  }

  class BowStorage {
    const z: Zone
    var lines: Lines
    var meta: Meta
    ghost var log: seq<Attempt>   // what was stored and what was refused so far

    constructor (z: Zone, db: StoreSpec.Db, ghost log: seq<Attempt>)
      ensures this.z == z && Db() == db && this.log == log
    {
      this.z := z;
      lines, meta, this.log := db.lines, db.meta, log;
    }

    ghost function Db(): StoreSpec.Db
      reads this
    {
      StoreSpec.Db.Db(lines, meta)
    }

    /** An interrupted write leaves any rows and any record. */
    method Break()
      modifies this`lines, this`meta
    {
      lines, meta := *, *;
    }

    /** PrepareMetaInfoMap: read the record, register the metering point, write it back if new. */
    method PrepareMetaInfo(w: Context, point: string, dir: Direction) returns (err: StoreError, info: Counts)
      modifies this`meta, w
      ensures old(w.ended) ==> w.ended
      ensures err == Stored || err == MetaRecord
      ensures err == Stored <==> w.faults == old(w.faults)
      ensures err == Stored ==> meta == Register(old(meta), point, dir) && info == Info(meta)
      ensures err == MetaRecord ==> w.faults == old(w.faults) + 1 && (w.last == ReadMeta || w.last == WriteMeta)
    {
      info := Counts(0, 0, -1, -1);
      var failed := w.Fails(ReadMeta);
      if failed {
        return MetaRecord, info;
      }
      info := MetaInfoOf(meta);
      var meta', info', modified := RegisterMeteringPoint(meta, info, point, dir);
      info := info';
      if modified {
        failed := w.Fails(WriteMeta);
        if failed {
          return MetaRecord, info;
        }
        meta := meta';
      }
      err := Stored;
    }

    /** StoreEnergyV2. One failing operation ends it: a failing read leaves the rows alone, a failing write
        may leave any, and after a failure to widen the period the rows are written. */
    method StoreEnergyV2(w: Context, point: string, e: Energy) returns (err: StoreError)
      modifies this, w
      ensures old(w.ended) ==> w.ended
      ensures w.faults == old(w.faults) + if err == Stored then 0 else 1
      ensures err == Stored ==> Db() == StoreBlock(z, old(Db()), Block(point, e, None)) && log == old(log) + [Done(point, e)]
      ensures err != Stored ==> log == old(log) + [Refused(point, e, err)] && RowsAfter(err, w.last, old(Db()), lines, Block(point, e, None))
    {
      err := StoreRows(w, point, e);
      log := log + if err == Stored then [Done(point, e)] else [Refused(point, e, err)];
    }

    /** What an error leaves of the rows. */
    ghost predicate RowsAfter(err: StoreError, op: Operation, db0: StoreSpec.Db, lines: Lines, b: Block)
      reads this
    {
      && (err == StoreError.Rows ==> op == ReadRows || op == WriteRows)
      && (err == StoreError.Rows && op == ReadRows ==> lines == db0.lines)
      && (err == MetaRecord ==> lines == db0.lines || lines == db0.lines + Written(z, db0, b))
    }

    method StoreRows(w: Context, point: string, e: Energy) returns (err: StoreError)
      modifies this`lines, this`meta, w
      ensures old(w.ended) ==> w.ended
      ensures w.faults == old(w.faults) + if err == Stored then 0 else 1
      ensures err == Stored ==> Db() == StoreBlock(z, old(Db()), Block(point, e, None))
      ensures err != Stored ==> RowsAfter(err, w.last, old(Db()), lines, Block(point, e, None))
    {
      var info;
      err, info := PrepareMetaInfo(w, point, DirectionOf(e.data));
      if err != Stored {
        return;
      }
      var failed := w.Fails(ReadRows);
      if failed {
        return StoreError.Rows;
      }
      var resources := Fetch(lines, z.day(e.start), z.day(e.end));
      if Organize(e.data) != [] {
        resources := ImportEnergyValues(z, resources, e, meta[point], info);
      } else {
        ImportNothing(z, resources, e, meta[point], info);
      }
      StoreBlockIs(z, old(Db()), Block(point, e, None), meta, info, resources);
      failed := w.Fails(WriteRows);
      if failed {
        lines := *;
        return StoreError.Rows;
      }
      lines := lines + resources;
      err := WidenPeriod(w, point, e);
    }

    /** updateMetaCP and updateMeta. */
    method WidenPeriod(w: Context, point: string, e: Energy) returns (err: StoreError)
      requires point in meta
      modifies this`meta, w
      ensures old(w.ended) ==> w.ended
      ensures err == Stored || err == MetaRecord
      ensures w.faults == old(w.faults) + if err == Stored then 0 else 1
      ensures err == Stored ==> meta == old(meta)[point := Widen(z, old(meta)[point], e.start, e.end)]
    {
      var wide := Widen(z, meta[point], e.start, e.end);
      if wide != meta[point] {
        var failed := w.Fails(WriteMeta);
        if failed {
          return MetaRecord;
        }
        meta := meta[point := wide];
      }
      err := Stored;
    }

    /** registerBlocks: one read and at most one write of the record for all blocks. */
    method RegisterBlocks(w: Context, blocks: seq<Block>) returns (err: StoreError, counts: seq<Counts>)
      modifies this`meta, w
      ensures old(w.ended) ==> w.ended
      ensures err == Stored || err == MetaRecord
      ensures w.faults == old(w.faults) + if err == Stored then 0 else 1
      ensures err == Stored ==>
        && meta == RegisterAll(old(meta), blocks)
        && |counts| == |blocks|
        && forall i :: 0 <= i < |blocks| ==> counts[i] == Info(RegisterAll(old(meta), blocks[..i + 1]))
    {
      counts := [];
      var failed := w.Fails(ReadMeta);
      if failed {
        return MetaRecord, counts;
      }
      var record, modified;
      record, counts, modified := RegisterEach(meta, blocks);
      if modified {
        failed := w.Fails(WriteMeta);
        if failed {
          return MetaRecord, counts;
        }
        meta := record;
      }
      err := Stored;
    }

    /** widenMetaPeriods: the periods of all blocks with one read and at most one write. */
    method WidenMetaPeriods(w: Context, blocks: seq<Block>) returns (err: StoreError)
      modifies this`meta, w
      ensures old(w.ended) ==> w.ended
      ensures err == Stored || err == MetaRecord
      ensures w.faults == old(w.faults) + if err == Stored then 0 else 1
      ensures err == Stored ==> meta == WidenAll(z, old(meta), blocks)
    {
      var failed := w.Fails(ReadMeta);
      if failed {
        return MetaRecord;
      }
      var record, changed := meta, false;
      var i := 0;
      while i < |blocks|
        invariant 0 <= i <= |blocks|
        invariant WidenAll(z, record, blocks[i..]) == WidenAll(z, meta, blocks)
        invariant !changed ==> record == meta
        modifies {}
      {
        var b := blocks[i];
        assert blocks[i..][1..] == blocks[i + 1..];
        if b.point in record {
          var wide := Widen(z, record[b.point], b.energy.start, b.energy.end);
          if wide != record[b.point] {
            changed := true;
          }
          record := record[b.point := wide];
        }
        i := i + 1;
      }
      if changed {
        failed := w.Fails(WriteMeta);
        if failed {
          return MetaRecord;
        }
        meta := record;
      }
      err := Stored;
    }

    /** StoreDayBatch: the blocks with one read and one write of the rows. Without a fault the metas
        agree with storing block by block; blocks of one day leave rows that read back the same, and
        the same arrays exactly under the condition SameArrays. */
    method StoreDayBatch(w: Context, blocks: seq<Block>) returns (err: StoreError)
      requires z.Valid()
      modifies this, w
      ensures old(w.ended) ==> w.ended
      ensures w.faults == old(w.faults) + if err == Stored then 0 else 1
      ensures err == Stored ==> DayStored(z, old(Db()), Db(), blocks) && log == old(log) + Logged(blocks)
      ensures err != Stored ==> log == old(log) && DayRowsAfter(err, w.last, old(Db()), lines, blocks)
    {
      if blocks == [] {
        return Stored;
      }
      ghost var d := z.day(blocks[0].energy.start);
      ghost var start := Db();
      var resources;
      err, resources := ReadDay(w, blocks, d);
      if err != Stored {
        return;
      }
      err := WriteDay(w, blocks, resources, start);
    }

    /** What an error leaves of the rows. */
    ghost predicate DayRowsAfter(err: StoreError, op: Operation, db0: StoreSpec.Db, lines: Lines, blocks: seq<Block>)
      reads this
    {
      && (err == StoreError.Rows ==> op == ReadRows || op == WriteRows)
      && (err == StoreError.Rows && op == ReadRows ==> lines == db0.lines)
      && (err == MetaRecord ==> lines == db0.lines || (OneDay(z, blocks) ==> RowsStored(z, db0, lines, blocks)))
    }

    /** Write the rows of the day and widen the periods. */
    method WriteDay(w: Context, blocks: seq<Block>, resources: Lines, ghost start: StoreSpec.Db) returns (err: StoreError)
      requires meta == RegisterAll(start.meta, blocks) && (OneDay(z, blocks) ==> RowsStored(z, start, lines + resources, blocks))
      modifies this, w
      ensures old(w.ended) ==> w.ended
      ensures w.faults == old(w.faults) + if err == Stored then 0 else 1
      ensures err == Stored ==> DayStored(z, start, Db(), blocks) && log == old(log) + Logged(blocks)
      ensures err != Stored ==> log == old(log) && DayRowsAfter(err, w.last, start, lines, blocks)
    {
      var failed := w.Fails(WriteRows);
      if failed {
        lines := *;
        return StoreError.Rows;
      }
      lines := lines + resources;
      err := WidenMetaPeriods(w, blocks);
      if err == Stored {
        StoreAllPeriods(z, start, blocks);
        log := log + Logged(blocks);
      }
    }

    /** Register the blocks, read the rows of their day and import the blocks into them. */
    method ReadDay(w: Context, blocks: seq<Block>, ghost d: int) returns (err: StoreError, resources: Lines)
      requires blocks != [] && d == z.day(blocks[0].energy.start)
      modifies this`meta, w
      ensures old(w.ended) ==> w.ended
      ensures w.faults == old(w.faults) + if err == Stored then 0 else 1
      ensures err == StoreError.Rows ==> w.last == ReadRows
      ensures err == Stored ==> meta == RegisterAll(old(meta), blocks) && (OneDay(z, blocks) ==> RowsStored(z, old(Db()), lines + resources, blocks))
    {
      resources := map[];
      ghost var start := Db();
      var counts;
      err, counts := RegisterBlocks(w, blocks);
      if err != Stored {
        return;
      }
      var begin, end := DaySpan(z, blocks, d);
      var failed := w.Fails(ReadRows);
      if failed {
        return StoreError.Rows, resources;
      }
      resources := ImportDay(z, start, meta, counts, blocks, Fetch(lines, z.day(begin), z.day(end)), d);
      if AllOn(z, blocks, d) {
        BatchStored(z, start, lines + resources, blocks, d);
      }
    }
  }
}
