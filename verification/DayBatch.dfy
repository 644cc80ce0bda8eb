/** One read and one write for a day: the rows in memory follow the rows that storing block by
    block would leave (StoreDayBatch against StoreEnergyV2). */
module DayBatch {
  import opened Calendar
  import opened Rows
  import opened Registry
  import opened StoreSpec

  /** resources are the rows of day d in memory, after some blocks; db is the store after the same
      blocks one by one, from rows stored. Reading back gives the same rows, and after a block that
      was imported the rows are the same as they are. Rows read from the store (fetched) are even;
      created are the others. */
  ghost predicate Tracks(db: Db, stored: Lines, resources: Lines, fetched: set<RowId>, created: set<RowId>, d: int, exact: bool) {
    && (forall id: RowId :: id.day != d ==> (id in db.lines <==> id in stored) && (id in stored ==> db.lines[id] == stored[id]))
    && (forall id: RowId :: id in resources <==> id in db.lines && id.day == d)
    && (forall id :: id in resources ==> Copy(resources[id]) == Copy(db.lines[id]))
    && (exact ==> forall id :: id in resources ==> resources[id] == db.lines[id])
    && fetched <= resources.Keys
    && (forall id :: id in fetched ==> Even(resources[id]))
    && created == resources.Keys - fetched
  }

  lemma TracksStart(db: Db, d: int)
    ensures var r := Fetch(db.lines, d, d); Tracks(db, db.lines, r, r.Keys, {}, d, false)
  {
    forall id | id in Fetch(db.lines, d, d) ensures Even(Copy(db.lines[id])) && Copy(Copy(db.lines[id])) == Copy(db.lines[id]) {
      CopyEven(db.lines[id]);
    }
  }

  /** Evening the created rows gives what the next single store reads. */
  lemma TracksEvened(db: Db, stored: Lines, resources: Lines, fetched: set<RowId>, created: set<RowId>, d: int, exact: bool, evened: Lines)
    requires Tracks(db, stored, resources, fetched, created, d, exact)
    requires evened.Keys == resources.Keys
    requires forall id :: id in resources ==> evened[id] == if id in created && d <= id.day <= d then Copy(resources[id]) else resources[id]
    ensures evened == Fetch(db.lines, d, d)
  {
    forall id | id in resources ensures evened[id] == Copy(db.lines[id]) {
      CopyEven(resources[id]);
    }
  }

  lemma WrittenEven(z: Zone, db: Db, b: Block, d: int)
    requires OnDay(z, b, d)
    ensures forall id :: id in db.lines && id.day == d ==> id in Written(z, db, b) && Even(Written(z, db, b)[id])
  {
    var f := Fetch(db.lines, d, d);
    var m := Registered(db, b);
    var c := if b.counts.Some? then b.counts.value else Info(m);
    forall id | id in f ensures Even(f[id]) {
      CopyEven(db.lines[id]);
    }
    ImportCodesKeys(z, f, b.energy.data, Organize(b.energy.data), m[b.point].dir, m[b.point].idx, c.consumers, c.producers, d);
    assert forall id :: id in db.lines && id.day == d ==> id in f;
  }

  /** An imported block: the rows in memory are then exactly the stored ones. */
  lemma TracksImport(db: Db, r: Lines, meta: Meta, stored: Lines, resources: Lines, fetched: set<RowId>, created: set<RowId>, d: int, exact: bool)
    requires Tracks(db, stored, resources, fetched, created, d, exact)
    requires forall id :: id in r ==> id.day == d
    requires forall id :: id in db.lines && id.day == d ==> id in r && Even(r[id])
    ensures Tracks(Db(db.lines + r, meta), stored, r, fetched, r.Keys - fetched, d, true)
  {
  }

  /** A block without a stored meter code is skipped; a single store would only read the day back. */
  lemma TracksSkip(z: Zone, db: Db, b: Block, stored: Lines, resources: Lines, fetched: set<RowId>, created: set<RowId>, d: int, exact: bool)
    requires Tracks(db, stored, resources, fetched, created, d, exact)
    requires OnDay(z, b, d) && !Coded(b)
    ensures Tracks(StoreBlock(z, db, b), stored, resources, fetched, created, d, false)
  {
    var next := StoreBlock(z, db, b);
    assert Written(z, db, b) == Fetch(db.lines, d, d);
    forall id | id in resources ensures Copy(resources[id]) == Copy(next.lines[id]) {
      CopyEven(db.lines[id]);
    }
  }

  /** The same rows under the same ids, once read back. */
  ghost predicate SameReading(a: Lines, b: Lines) {
    a.Keys == b.Keys && forall id :: id in a ==> Copy(a[id]) == Copy(b[id])
  }

  /** The same record, and the same rows once read back. */
  ghost predicate Like(a: Db, b: Db) {
    a.meta == b.meta && SameReading(a.lines, b.lines)
  }

  lemma LikeTwice(a: Db, b: Db, c: Db)
    requires Like(a, b) && Like(b, c)
    ensures Like(a, c)
  {
  }

  /** A store reads the rows before it changes them, so it cannot tell such stores apart. */
  lemma LikeStore(z: Zone, a: Db, b: Db, block: Block)
    requires Like(a, b)
    ensures Like(StoreBlock(z, a, block), StoreBlock(z, b, block))
  {
    var from, until := z.day(block.energy.start), z.day(block.energy.end);
    assert Fetch(a.lines, from, until) == Fetch(b.lines, from, until);
    assert Written(z, a, block) == Written(z, b, block);
  }

  lemma {:induction false} LikeStoreAll(z: Zone, a: Db, b: Db, blocks: seq<Block>)
    requires Like(a, b)
    ensures Like(StoreAll(z, a, blocks), StoreAll(z, b, blocks))
    decreases |blocks|
  {
    if blocks != [] {
      LikeStore(z, a, b, blocks[0]);
      LikeStoreAll(z, StoreBlock(z, a, blocks[0]), StoreBlock(z, b, blocks[0]), blocks[1..]);
    }
  }

  lemma TracksEnd(db: Db, stored: Lines, resources: Lines, fetched: set<RowId>, created: set<RowId>, d: int, exact: bool)
    requires Tracks(db, stored, resources, fetched, created, d, exact)
    requires forall id :: id in stored && id.day == d ==> id in resources
    ensures SameReading(stored + resources, db.lines)
    ensures exact ==> stored + resources == db.lines
  {
    var all := stored + resources;
    forall id: RowId ensures id in all <==> id in db.lines {
    }
    assert all.Keys == db.lines.Keys;
  }

  lemma SameCount(a: set<RowId>, b: set<RowId>)
    requires a <= b && |b| <= |a|
    ensures a == b
  {
    assert b == a + (b - a);
    assert |b| == |a| + |b - a|;
  }
}
