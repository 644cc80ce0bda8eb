/** When a day stored at once has the same arrays, lengths included, as the day stored block by block.
    A block without a stored meter code is skipped by the batch; stored on its own it reads the day
    back and writes it evened. So only rows that the last coded block creates can differ. */
module DayArrays {
  import opened Calendar
  import opened Rows
  import opened Registry
  import opened StoreSpec
  import opened StoreOrder
  import opened StoreLaws
  import opened DayBatch
  import opened DaySplit
  import opened Seqs

  /** The place of the last block with a stored meter code, -1 without any. */
  function LastCoded(blocks: seq<Block>): (j: int)
    ensures -1 <= j < |blocks|
  {
    if blocks == [] then -1
    else if Coded(blocks[|blocks| - 1]) then |blocks| - 1
    else LastCoded(blocks[..|blocks| - 1])
  }

  /** The rows after the day was read and written back. */
  function Reread(lines: Lines, d: int): Lines {
    lines + Fetch(lines, d, d)
  }

  /** The blocks up to the last one with a stored meter code. */
  function UpToCoded(blocks: seq<Block>): seq<Block> {
    blocks[..LastCoded(blocks) + 1]
  }

  /** The rows a day batch leaves: those after its last coded block, or the day evened. */
  ghost function BatchLines(z: Zone, db: Db, blocks: seq<Block>, d: int): Lines {
    LinesAfter(z, db, UpToCoded(blocks), d)
  }

  ghost function LinesAfter(z: Zone, db: Db, done: seq<Block>, d: int): Lines {
    if done == [] then Reread(db.lines, d) else StoreAll(z, db, done).lines
  }

  lemma {:induction false} LastCodedIs(blocks: seq<Block>)
    ensures var j := LastCoded(blocks); (j >= 0 ==> Coded(blocks[j])) && forall k :: j < k < |blocks| ==> !Coded(blocks[k])
  {
    if blocks != [] && !Coded(blocks[|blocks| - 1]) {
      LastCodedIs(blocks[..|blocks| - 1]);
    }
  }

  lemma BatchLinesSkip(z: Zone, db: Db, blocks: seq<Block>, i: nat, d: int)
    requires i < |blocks| && !Coded(blocks[i])
    ensures BatchLines(z, db, blocks[..i + 1], d) == BatchLines(z, db, blocks[..i], d)
  {
    PrefixOfPrefix(blocks, i + 1, i);
    UpToCodedSkip(blocks[..i + 1]);
  }

  lemma UpToCodedSkip(blocks: seq<Block>)
    requires blocks != [] && !Coded(blocks[|blocks| - 1])
    ensures UpToCoded(blocks) == UpToCoded(blocks[..|blocks| - 1])
  {
    PrefixOfPrefix(blocks, |blocks| - 1, LastCoded(blocks) + 1);
  }

  lemma BatchLinesCoded(z: Zone, db: Db, blocks: seq<Block>, i: nat, d: int)
    requires i < |blocks| && Coded(blocks[i])
    ensures BatchLines(z, db, blocks[..i + 1], d) == StoreAll(z, db, blocks[..i + 1]).lines
  {
    UpToCodedAll(blocks[..i + 1]);
  }

  lemma UpToCodedAll(blocks: seq<Block>)
    requires blocks != [] && (Coded(blocks[|blocks| - 1]) || LastCoded(blocks) == |blocks| - 1)
    ensures UpToCoded(blocks) == blocks
  {
  }

  // ----- blocks without a stored code -----

  lemma RereadTwice(lines: Lines, d: int)
    ensures Reread(Reread(lines, d), d) == Reread(lines, d)
  {
    forall id | id in lines ensures Copy(Copy(lines[id])) == Copy(lines[id]) {
      CopyEven(lines[id]);
    }
  }

  lemma {:induction false} UncodedStores(z: Zone, db: Db, blocks: seq<Block>, d: int)
    requires blocks != [] && forall b :: b in blocks ==> OnDay(z, b, d) && !Coded(b)
    ensures StoreAll(z, db, blocks).lines == Reread(db.lines, d)
    decreases |blocks|
  {
    var b := blocks[0];
    assert b in blocks;
    assert Written(z, db, b) == Fetch(db.lines, d, d);
    var next := StoreBlock(z, db, b);
    assert next.lines == Reread(db.lines, d);
    if |blocks| > 1 {
      UncodedStores(z, next, blocks[1..], d);
      RereadTwice(db.lines, d);
    }
  }

  lemma RereadReads(lines: Lines, d: int)
    ensures SameReading(lines, Reread(lines, d))
  {
    forall id | id in lines ensures Copy(Reread(lines, d)[id]) == Copy(lines[id]) {
      CopyEven(lines[id]);
    }
  }

  ghost predicate EvenDay(lines: Lines, d: int) {
    forall id :: id in lines && id.day == d ==> Even(lines[id])
  }

  lemma RereadSame(lines: Lines, d: int)
    ensures Reread(lines, d) == lines <==> EvenDay(lines, d)
  {
    forall id | id in lines ensures Copy(lines[id]) == lines[id] <==> Even(lines[id]) {
      CopyEven(lines[id]);
    }
    if Reread(lines, d) == lines {
      forall id | id in lines && id.day == d ensures Even(lines[id]) {
        assert Reread(lines, d)[id] == Copy(lines[id]);
      }
    }
  }

  /** What block by block storing leaves, from the last coded block on. */
  lemma FromLastCoded(z: Zone, db: Db, blocks: seq<Block>, d: int)
    requires blocks != [] && forall b :: b in blocks ==> OnDay(z, b, d)
    ensures var j := LastCoded(blocks);
            StoreAll(z, db, blocks).lines == if j == |blocks| - 1 then BatchLines(z, db, blocks, d) else Reread(BatchLines(z, db, blocks, d), d)
  {
    if LastCoded(blocks) == |blocks| - 1 {
      UpToCodedAll(blocks);
    } else if LastCoded(blocks) < 0 {
      FromNone(z, db, blocks, d);
    } else {
      FromTail(z, db, blocks, d);
    }
  }

  lemma FromNone(z: Zone, db: Db, blocks: seq<Block>, d: int)
    requires blocks != [] && LastCoded(blocks) < 0 && forall b :: b in blocks ==> OnDay(z, b, d)
    ensures StoreAll(z, db, blocks).lines == Reread(BatchLines(z, db, blocks, d), d)
  {
    LastCodedIs(blocks);
    UncodedStores(z, db, blocks, d);
    RereadTwice(db.lines, d);
  }

  lemma FromTail(z: Zone, db: Db, blocks: seq<Block>, d: int)
    requires 0 <= LastCoded(blocks) < |blocks| - 1 && forall b :: b in blocks ==> OnDay(z, b, d)
    ensures StoreAll(z, db, blocks).lines == Reread(BatchLines(z, db, blocks, d), d)
  {
    LastCodedIs(blocks);
    var head, tail := UpToCoded(blocks), blocks[LastCoded(blocks) + 1..];
    assert head + tail == blocks;
    TailStores(z, db, head, tail, d);
  }

  lemma TailStores(z: Zone, db: Db, head: seq<Block>, tail: seq<Block>, d: int)
    requires tail != [] && forall b :: b in tail ==> OnDay(z, b, d) && !Coded(b)
    ensures StoreAll(z, db, head + tail).lines == Reread(StoreAll(z, db, head).lines, d)
  {
    StoreAllConcat(z, db, head, tail);
    UncodedStores(z, StoreAll(z, db, head), tail, d);
  }

  // ----- the sizes of a row -----

  datatype Sizes = Sizes(cons: nat, prod: nat, qcons: nat, qprod: nat)
  {
    predicate Even() {
      qcons == cons && qprod == prod
    }

    /** The arrays of a direction grown to at least n. */
    function Grown(dir: Direction, n: nat): Sizes {
      match dir
      case Consumer => this.(cons := Most(cons, n), qcons := Most(qcons, n))
      case Producer => this.(prod := Most(prod, n), qprod := Most(qprod, n))
    }
  }

  function Most(a: nat, b: nat): nat {
    if a < b then b else a
  }

  function SizesOf(r: Row): Sizes {
    Sizes(|r.cons|, |r.prod|, |r.qcons|, |r.qprod|)
  }

  /** The row as a store that sizes new rows by c and p finds or makes it. */
  function RowAt(lines: Lines, id: RowId, c: nat, p: nat): Row {
    if id in lines then lines[id] else MakeRow(c, p)
  }

  lemma GrownTwice(s: Sizes, dir: Direction, m: nat, n: nat)
    ensures s.Grown(dir, m).Grown(dir, n) == s.Grown(dir, Most(m, n))
    ensures s.Grown(dir, 0) == s
  {
  }

  /** The rows of seen hold slot k in both arrays. */
  ghost predicate Seen(lines: Lines, seen: set<RowId>, dir: Direction, k: nat) {
    forall id :: id in seen ==> id in lines && k < |Values(lines[id], dir)| && k < |Quality(lines[id], dir)|
  }

  lemma ValueSizes(z: Zone, lines: Lines, v: Value, seen: set<RowId>, dir: Direction, k: nat, c: nat, p: nat, id: RowId)
    requires Seen(lines, seen, dir, k) && Covered(lines, seen, dir, k)
    ensures var r := ImportValue(z, lines, v, seen, dir, k, c, p);
            && Seen(r, seen + {z.Row(v.from)}, dir, k)
            && SizesOf(RowAt(r, id, c, p)) == SizesOf(RowAt(lines, id, c, p)).Grown(dir, if z.Row(v.from) == id then k + 1 else 0)
  {
  }

  /** One code grows the rows it has a value for to its slot, and no other. */
  lemma {:induction false} ValuesSizes(z: Zone, lines: Lines, vals: seq<Value>, seen: set<RowId>, dir: Direction, k: nat, c: nat, p: nat, id: RowId)
    requires Seen(lines, seen, dir, k) && Covered(lines, seen, dir, k)
    ensures var r := ImportValues(z, lines, vals, seen, dir, k, c, p);
            && (id in r <==> id in lines || Hits(z, vals, id))
            && SizesOf(RowAt(r, id, c, p)) == SizesOf(RowAt(lines, id, c, p)).Grown(dir, if Hits(z, vals, id) then k + 1 else 0)
    decreases |vals|
  {
    if vals != [] {
      var next := ImportValue(z, lines, vals[0], seen, dir, k, c, p);
      ValueSizes(z, lines, vals[0], seen, dir, k, c, p, id);
      ValuesSizes(z, next, vals[1..], seen + {z.Row(vals[0].from)}, dir, k, c, p, id);
      HitsTail(z, vals, id);
      var s := SizesOf(RowAt(lines, id, c, p));
      GrownTwice(s, dir, if z.Row(vals[0].from) == id then k + 1 else 0, if Hits(z, vals[1..], id) then k + 1 else 0);
    }
  }

  lemma HitsTail(z: Zone, vals: seq<Value>, id: RowId)
    requires vals != []
    ensures Hits(z, vals, id) <==> z.Row(vals[0].from) == id || Hits(z, vals[1..], id)
  {
    assert forall i :: 0 <= i < |vals| - 1 ==> vals[1..][i] == vals[i + 1];
    if Hits(z, vals, id) {
      var i :| 0 <= i < |vals| && z.Row(vals[i].from) == id;
      assert i > 0 ==> vals[1..][i - 1] == vals[i];
    }
  }

  /** One more than the highest slot that the picked codes write in row id, 0 without a value there. */
  ghost function Top(z: Zone, data: seq<CodeData>, picks: seq<Pick>, dir: Direction, idx: nat, id: RowId): nat
    requires forall q :: q in picks ==> q.source < |data|
  {
    if picks == [] then 0
    else
      Most(if Hits(z, Sorted(data[picks[0].source].values), id) then Slot(dir, idx, picks[0].delta) + 1 else 0,
           Top(z, data, picks[1..], dir, idx, id))
  }

  lemma {:induction false} CodesSizes(z: Zone, lines: Lines, data: seq<CodeData>, picks: seq<Pick>, dir: Direction, idx: nat, c: nat, p: nat, id: RowId)
    requires forall q :: q in picks ==> q.source < |data|
    ensures var r := ImportCodes(z, lines, data, picks, dir, idx, c, p);
            && (id in r <==> id in lines || Top(z, data, picks, dir, idx, id) > 0)
            && SizesOf(RowAt(r, id, c, p)) == SizesOf(RowAt(lines, id, c, p)).Grown(dir, Top(z, data, picks, dir, idx, id))
    decreases |picks|
  {
    if picks != [] {
      var vals, k := Sorted(data[picks[0].source].values), Slot(dir, idx, picks[0].delta);
      var next := ImportPick(z, lines, data, picks[0], dir, idx, c, p);
      ValuesSizes(z, lines, vals, {}, dir, k, c, p, id);
      CodesSizes(z, next, data, picks[1..], dir, idx, c, p, id);
      GrownTwice(SizesOf(RowAt(lines, id, c, p)), dir, if Hits(z, vals, id) then k + 1 else 0, Top(z, data, picks[1..], dir, idx, id));
    } else {
      GrownTwice(SizesOf(RowAt(lines, id, c, p)), dir, 0, 0);
    }
  }

  /** The block has a stored value in row id. */
  ghost predicate Touches(z: Zone, b: Block, id: RowId) {
    Top(z, b.energy.data, Organize(b.energy.data), Consumer, 0, id) > 0
  }

  lemma {:induction false} TopAnywhere(z: Zone, data: seq<CodeData>, picks: seq<Pick>, dir: Direction, idx: nat, id: RowId)
    requires forall q :: q in picks ==> q.source < |data|
    ensures Top(z, data, picks, dir, idx, id) > 0 <==> Top(z, data, picks, Consumer, 0, id) > 0
  {
    if picks != [] {
      TopAnywhere(z, data, picks[1..], dir, idx, id);
    }
  }

  /** A new row of these counts, written up to top by a meter of the direction, has quality arrays as
      long as its value arrays. */
  predicate EvenlySized(dir: Direction, c: nat, p: nat, top: nat) {
    if dir == Consumer then p == c else Most(p, top) == Most(c, top)
  }

  lemma NewRowEven(dir: Direction, c: nat, p: nat, top: nat)
    ensures SizesOf(MakeRow(c, p)).Grown(dir, top).Even() <==> EvenlySized(dir, c, p, top)
  {
  }

  // ----- the rows of the day -----

  lemma WrittenSizes(z: Zone, db: Db, b: Block, d: int, id: RowId)
    requires OnDay(z, b, d) && id.day == d
    ensures var m := Registered(db, b);
            var c := if b.counts.Some? then b.counts.value else Info(m);
            var top := Top(z, b.energy.data, Organize(b.energy.data), m[b.point].dir, m[b.point].idx, id);
            && (id in StoreBlock(z, db, b).lines <==> id in db.lines || Touches(z, b, id))
            && (id !in db.lines && Touches(z, b, id) ==> SizesOf(StoreBlock(z, db, b).lines[id]) == SizesOf(MakeRow(c.consumers, c.producers)).Grown(m[b.point].dir, top))
  {
    var m := Registered(db, b);
    var c := if b.counts.Some? then b.counts.value else Info(m);
    var f := Fetch(db.lines, d, d);
    CodesSizes(z, f, b.energy.data, Organize(b.energy.data), m[b.point].dir, m[b.point].idx, c.consumers, c.producers, id);
    TopAnywhere(z, b.energy.data, Organize(b.energy.data), m[b.point].dir, m[b.point].idx, id);
    assert id in f <==> id in db.lines;
  }

  ghost predicate TouchedBy(z: Zone, blocks: seq<Block>, id: RowId) {
    exists i :: 0 <= i < |blocks| && Touches(z, blocks[i], id)
  }

  /** The rows of the day after some blocks: those before, and those the blocks have values for. */
  lemma {:induction false} RowsAfter(z: Zone, db: Db, blocks: seq<Block>, d: int, id: RowId)
    requires id.day == d && forall b :: b in blocks ==> OnDay(z, b, d)
    ensures id in StoreAll(z, db, blocks).lines <==> id in db.lines || TouchedBy(z, blocks, id)
    decreases |blocks|
  {
    if blocks != [] {
      assert blocks[0] in blocks;
      WrittenSizes(z, db, blocks[0], d, id);
      RowsAfter(z, StoreBlock(z, db, blocks[0]), blocks[1..], d, id);
      assert forall i :: 0 <= i < |blocks| - 1 ==> blocks[1..][i] == blocks[i + 1];
      if TouchedBy(z, blocks, id) {
        var i :| 0 <= i < |blocks| && Touches(z, blocks[i], id);
        assert i > 0 ==> blocks[1..][i - 1] == blocks[i];
      }
    }
  }

  /** Block j is the first to have a value in row id, which the store does not hold. */
  ghost predicate Creates(z: Zone, db: Db, blocks: seq<Block>, j: nat, id: RowId)
    requires j < |blocks|
  {
    id !in db.lines && Touches(z, blocks[j], id) && !TouchedBy(z, blocks[..j], id)
  }

  /** Every row that block j creates gets quality arrays as long as its value arrays. */
  ghost predicate CreatesEven(z: Zone, db: Db, blocks: seq<Block>, j: nat)
    requires j < |blocks|
  {
    var b := blocks[j];
    var meta := RegisterAll(db.meta, blocks[..j + 1]);
    var c := if b.counts.Some? then b.counts.value else Info(meta);
    b.point in meta && forall id :: Creates(z, db, blocks, j, id) ==>
      EvenlySized(meta[b.point].dir, c.consumers, c.producers, Top(z, b.energy.data, Organize(b.energy.data), meta[b.point].dir, meta[b.point].idx, id))
  }

  /** The condition for equal arrays: the last coded block comes last or creates only even rows. */
  ghost predicate SameArrays(z: Zone, db: Db, blocks: seq<Block>) {
    var j := LastCoded(blocks);
    j < 0 || j == |blocks| - 1 || CreatesEven(z, db, blocks, j)
  }

  /** The rows a block creates are even exactly if its counts and its highest slots say so. */
  lemma CreatedRow(z: Zone, db: Db, blocks: seq<Block>, j: nat, d: int, id: RowId)
    requires j < |blocks| && id.day == d && forall b :: b in blocks ==> OnDay(z, b, d)
    requires Creates(z, db, blocks, j, id)
    ensures blocks[j].point in RegisterAll(db.meta, blocks[..j + 1])
    ensures var b := blocks[j];
            var meta := RegisterAll(db.meta, blocks[..j + 1]);
            var c := if b.counts.Some? then b.counts.value else Info(meta);
            var after := StoreAll(z, db, blocks[..j + 1]).lines;
            && id in after
            && (Even(after[id]) <==> EvenlySized(meta[b.point].dir, c.consumers, c.producers, Top(z, b.energy.data, Organize(b.energy.data), meta[b.point].dir, meta[b.point].idx, id)))
  {
    var b, before := blocks[j], StoreAll(z, db, blocks[..j]);
    assert b in blocks;
    assert blocks[..j + 1][..j] == blocks[..j] && blocks[..j + 1][j] == b && blocks[..j + 1][..j + 1] == blocks[..j + 1];
    MetaAtBlock(z, db, blocks[..j + 1], j);
    RowsAfter(z, db, blocks[..j], d, id);
    WrittenSizes(z, before, b, d, id);
    StoreAllNext(z, db, blocks, j);
    var m := Registered(before, b);
    var c := if b.counts.Some? then b.counts.value else Info(m);
    NewRowEven(m[b.point].dir, c.consumers, c.producers, Top(z, b.energy.data, Organize(b.energy.data), m[b.point].dir, m[b.point].idx, id));
  }

  /** Rows that were there before the block are even after it. */
  lemma OldRowEven(z: Zone, db: Db, blocks: seq<Block>, j: nat, d: int, id: RowId)
    requires j < |blocks| && id.day == d && forall b :: b in blocks ==> OnDay(z, b, d)
    requires id in StoreAll(z, db, blocks[..j]).lines
    ensures id in StoreAll(z, db, blocks[..j + 1]).lines && Even(StoreAll(z, db, blocks[..j + 1]).lines[id])
  {
    assert blocks[j] in blocks;
    StoreAllNext(z, db, blocks, j);
    WrittenEven(z, StoreAll(z, db, blocks[..j]), blocks[j], d);
  }

  lemma EvenAfter(z: Zone, db: Db, blocks: seq<Block>, j: nat, d: int)
    requires j < |blocks| && forall b :: b in blocks ==> OnDay(z, b, d)
    ensures EvenDay(StoreAll(z, db, blocks[..j + 1]).lines, d) <==> CreatesEven(z, db, blocks, j)
  {
    var after := StoreAll(z, db, blocks[..j + 1]).lines;
    PointKnown(db.meta, blocks, j);
    forall id | id in after && id.day == d ensures Creates(z, db, blocks, j, id) || Even(after[id]) {
      RowIsOldOrNew(z, db, blocks, j, d, id);
    }
    forall id | Creates(z, db, blocks, j, id) ensures id.day == d {
      TouchesOnDay(z, blocks[j], d, id);
    }
    if CreatesEven(z, db, blocks, j) {
      forall id | id in after && id.day == d ensures Even(after[id]) {
        if Creates(z, db, blocks, j, id) {
          CreatedRow(z, db, blocks, j, d, id);
        }
      }
    } else {
      var meta := RegisterAll(db.meta, blocks[..j + 1]);
      var b := blocks[j];
      var c := if b.counts.Some? then b.counts.value else Info(meta);
      var id :| Creates(z, db, blocks, j, id) && !EvenlySized(meta[b.point].dir, c.consumers, c.producers, Top(z, b.energy.data, Organize(b.energy.data), meta[b.point].dir, meta[b.point].idx, id));
      CreatedRow(z, db, blocks, j, d, id);
    }
  }

  lemma PointKnown(meta: Meta, blocks: seq<Block>, j: nat)
    requires j < |blocks|
    ensures blocks[j].point in RegisterAll(meta, blocks[..j + 1])
  {
    RegisterAllKeeps(meta, blocks[..j + 1]);
    assert blocks[..j + 1][j] in blocks[..j + 1];
  }

  lemma RowIsOldOrNew(z: Zone, db: Db, blocks: seq<Block>, j: nat, d: int, id: RowId)
    requires j < |blocks| && id.day == d && forall b :: b in blocks ==> OnDay(z, b, d)
    requires id in StoreAll(z, db, blocks[..j + 1]).lines
    ensures Creates(z, db, blocks, j, id) || Even(StoreAll(z, db, blocks[..j + 1]).lines[id])
  {
    assert blocks[j] in blocks;
    RowsAfter(z, db, blocks[..j], d, id);
    StoreAllNext(z, db, blocks, j);
    WrittenSizes(z, StoreAll(z, db, blocks[..j]), blocks[j], d, id);
    if id in StoreAll(z, db, blocks[..j]).lines {
      OldRowEven(z, db, blocks, j, d, id);
    }
  }

  /** A block of day d has values only in rows of that day. */
  lemma TouchesOnDay(z: Zone, b: Block, d: int, id: RowId)
    requires OnDay(z, b, d) && Touches(z, b, id)
    ensures id.day == d
  {
    TopOnDay(z, b.energy.data, Organize(b.energy.data), d, id);
  }

  lemma {:induction false} TopOnDay(z: Zone, data: seq<CodeData>, picks: seq<Pick>, d: int, id: RowId)
    requires forall q :: q in picks ==> q.source < |data|
    requires forall q, v :: q in picks && v in data[q.source].values ==> z.day(v.from) == d
    requires Top(z, data, picks, Consumer, 0, id) > 0
    ensures id.day == d
  {
    var vals := data[picks[0].source].values;
    if Hits(z, Sorted(vals), id) {
      var i :| 0 <= i < |Sorted(vals)| && z.Row(Sorted(vals)[i].from) == id;
      SortedIsSort(vals);
      assert Sorted(vals)[i] in multiset(Sorted(vals));
      assert picks[0] in picks && Sorted(vals)[i] in vals;
    } else {
      TopOnDay(z, data, picks[1..], d, id);
    }
  }

  /** The day stored at once reads back as the day stored block by block. */
  lemma BatchReading(z: Zone, db: Db, blocks: seq<Block>, d: int)
    requires blocks != [] && forall b :: b in blocks ==> OnDay(z, b, d)
    ensures SameReading(BatchLines(z, db, blocks, d), StoreAll(z, db, blocks).lines)
  {
    FromLastCoded(z, db, blocks, d);
    RereadReads(BatchLines(z, db, blocks, d), d);
  }

  /** The arrays are the same, lengths included, exactly under that condition. */
  lemma BatchExact(z: Zone, db: Db, blocks: seq<Block>, d: int)
    requires blocks != [] && forall b :: b in blocks ==> OnDay(z, b, d)
    ensures BatchLines(z, db, blocks, d) == StoreAll(z, db, blocks).lines <==> SameArrays(z, db, blocks)
  {
    var j := LastCoded(blocks);
    FromLastCoded(z, db, blocks, d);
    if j < 0 {
      RereadTwice(db.lines, d);
    } else if j < |blocks| - 1 {
      RereadSame(BatchLines(z, db, blocks, d), d);
      EvenAfter(z, db, blocks, j, d);
    }
  }

  /** A case where they differ: one consumer, a block with a value and then a block of which no code is
      stored, both as the cut gives them. The batch leaves a producer quality array of length 1 beside no
      producer values. */
  lemma LengthsDiffer()
    ensures var z := Zone(d => d * (24 * HOUR), t => t / (24 * HOUR), t => t % (24 * HOUR), t => t, 0);
            var db := Db(map[], map["A" := Meter(0, 0, Consumer, None, None)]);
            var v := Value(0, QUARTER, 1, 7.0);
            var src1, src2 := Energy(0, 2 * QUARTER, [CodeData(Con, [v])]), Energy(0, 2 * QUARTER, [CodeData(Other, [v])]);
            var b1, b2 := Block("A", Energy(0, QUARTER, src1.data), None), Block("A", Energy(0, QUARTER, src2.data), None);
            && OnDayOf(z, src1, 0) == [b1.energy] && OnDayOf(z, src2, 0) == [b2.energy]
            && BatchLines(z, db, [b1, b2], 0) != StoreAll(z, db, [b1, b2]).lines
  {
    var z := Zone(d => d * (24 * HOUR), t => t / (24 * HOUR), t => t % (24 * HOUR), t => t, 0);
    var db := Db(map[], map["A" := Meter(0, 0, Consumer, None, None)]);
    var v := Value(0, QUARTER, 1, 7.0);
    OneOnDay(z, Energy(0, 2 * QUARTER, [CodeData(Con, [v])]), 0, Con, v);
    OneOnDay(z, Energy(0, 2 * QUARTER, [CodeData(Other, [v])]), 0, Other, v);
    UnevenPair(z, db, "A", v, QUARTER);
  }

  /** The cut of a period with one value that lies on the day. */
  lemma OneOnDay(z: Zone, src: Energy, d: int, code: MeterCode, v: Value)
    requires src.data == [CodeData(code, [v])]
    requires z.midnight(d) <= v.from < v.to <= z.midnight(d + 1) && src.start <= v.from && v.to <= src.end
    ensures OnDayOf(z, src, d) == [Energy(Max(z.midnight(d), src.start), Min(z.midnight(d + 1), src.end) - QUARTER, src.data)]
  {
    var lo, hi := Max(z.midnight(d), src.start), Min(z.midnight(d + 1), src.end);
    assert [v][1..] == [] && src.data[1..] == [];
    assert ClipValues([v], lo, hi) == [v] + ClipValues([v][1..], lo, hi) == [v];
    assert ClipData(src.data, lo, hi) == ClipEntry(src.data[0], lo, hi) + ClipData(src.data[1..], lo, hi) == src.data;
  }

  lemma UnevenPair(z: Zone, db: Db, point: string, v: Value, end: int)
    requires z.day(end) == z.day(v.from) && db.lines == map[] && db.meta.Keys == {point} && db.meta[point].dir == Consumer
    ensures var b1 := Block(point, Energy(v.from, end, [CodeData(Con, [v])]), None);
            var b2 := Block(point, Energy(v.from, end, [CodeData(Other, [v])]), None);
            BatchLines(z, db, [b1, b2], z.day(v.from)) != StoreAll(z, db, [b1, b2]).lines
  {
    var b1 := Block(point, Energy(v.from, end, [CodeData(Con, [v])]), None);
    var b2 := Block(point, Energy(v.from, end, [CodeData(Other, [v])]), None);
    OneConsumed(z, b1.energy.data, v);
    NothingStored(b2.energy.data, v);
    LastOfPair(b1, b2);
    BatchExact(z, db, [b1, b2], z.day(v.from));
    UnevenFirst(z, db, b1, b2, z.Row(v.from));
  }

  /** The first of two blocks makes an uneven row if there is one consumer and no producer. */
  lemma UnevenFirst(z: Zone, db: Db, b1: Block, b2: Block, id: RowId)
    requires db.lines == map[] && db.meta.Keys == {b1.point} && db.meta[b1.point].dir == Consumer && b1.counts.None? && Touches(z, b1, id)
    ensures !CreatesEven(z, db, [b1, b2], 0)
  {
    OnlyConsumer(db.meta, b1.point);
    assert [b1, b2][..1] == [b1];
    RegisterOne(db.meta, b1);
    assert Creates(z, db, [b1, b2], 0, id);
  }

  lemma LastOfPair(b1: Block, b2: Block)
    requires Coded(b1) && !Coded(b2)
    ensures LastCoded([b1, b2]) == 0
  {
    assert [b1, b2][..1] == [b1];
  }

  lemma OnlyConsumer(meta: Meta, point: string)
    requires meta.Keys == {point} && meta[point].dir == Consumer
    ensures Info(meta).consumers == 1 && Info(meta).producers == 0
  {
    assert Names(meta, Consumer) == {point};
    assert Names(meta, Producer) == {};
  }

  /** The row that the first value of the only consumer makes: it ends inside of the consumer's slots. */
  lemma OneValueRow(z: Zone, db: Db, point: string, v: Value, end: int)
    requires db.lines == map[] && db.meta.Keys == {point} && db.meta[point].dir == Consumer && db.meta[point].idx == 0
    ensures var b := Block(point, Energy(v.from, end, [CodeData(Con, [v])]), None);
            StoreBlock(z, db, b).lines == map[z.Row(v.from) := Row([v.kwh], [], [v.quality], [0])]
  {
    var b := Block(point, Energy(v.from, end, [CodeData(Con, [v])]), None);
    var data, id := b.energy.data, z.Row(v.from);
    OneConsumed(z, data, v);
    OnlyConsumer(db.meta, point);
    RegisterOne(db.meta, b);
    assert Fetch(db.lines, z.day(b.energy.start), z.day(b.energy.end)) == map[];
    OneValueImport(z, data, v);
  }

  lemma OneValueImport(z: Zone, data: seq<CodeData>, v: Value)
    requires data == [CodeData(Con, [v])]
    ensures ImportCodes(z, map[], data, [Pick(0, 0)], Consumer, 0, 1, 0) == map[z.Row(v.from) := Row([v.kwh], [], [v.quality], [0])]
  {
    OneConsumed(z, data, v);
    var next := ImportValue(z, map[], v, {}, Consumer, 0, 1, 0);
    assert Put(MakeRow(1, 0).cons, 0, v.kwh, 0.0) == [v.kwh] && Put(MakeRow(1, 0).qcons, 0, v.quality, 0) == [v.quality];
    assert MakeRow(1, 0).prod == [] && MakeRow(1, 0).qprod == [0];
    assert next == map[z.Row(v.from) := Row([v.kwh], [], [v.quality], [0])];
    assert [v][1..] == [] && [Pick(0, 0)][1..] == [];
    assert ImportValues(z, map[], [v], {}, Consumer, 0, 1, 0) == ImportValues(z, next, [v][1..], {} + {z.Row(v.from)}, Consumer, 0, 1, 0) == next;
  }

  lemma NothingStored(data: seq<CodeData>, v: Value)
    requires data == [CodeData(Other, [v])]
    ensures Organize(data) == []
  {
    assert data[..0] == [];
    assert Picks(data[..0], false) == [] && Picks(data[..0], true) == [];
    assert Picks(data, false) == [] && Picks(data, true) == [];
  }

  lemma OneConsumed(z: Zone, data: seq<CodeData>, v: Value)
    requires data == [CodeData(Con, [v])]
    ensures Organize(data) == [Pick(0, 0)] && Sorted([v]) == [v]
    ensures Top(z, data, Organize(data), Consumer, 0, z.Row(v.from)) == 1
  {
    assert data[..0] == [];
    assert Picks(data[..0], false) == [] && Picks(data[..0], true) == [];
    assert Picks(data, false) == [Pick(0, 0)] && Picks(data, true) == [];
    assert [v][1..] == [] && [Pick(0, 0)][1..] == [];
    assert Sorted([]) == [];
    assert Hits(z, [v], z.Row(v.from)) by {
      assert z.Row([v][0].from) == z.Row(v.from);
    }
  }

  // ----- blocks that end before they start -----

  /** A block whose end lies on the day before its start reads no row, so it replaces every row it has a
      value for: the cells of all other metering points in it are lost. Other rows stay. */
  lemma ReversedForgets(z: Zone, db: Db, b: Block, id: RowId, dir: Direction, n: nat)
    requires z.day(b.energy.end) < z.day(b.energy.start) && !BlockHits(z, MeterOf(db, b), b, id, dir, n)
    ensures CellOf(StoreBlock(z, db, b).lines, id, dir, n) == if Touches(z, b, id) then Cell(0.0, 0) else CellOf(db.lines, id, dir, n)
  {
    var meta := Registered(db, b);
    var m := meta[b.point];
    var c := if b.counts.Some? then b.counts.value else Info(meta);
    var data, picks := b.energy.data, Organize(b.energy.data);
    assert Fetch(db.lines, z.day(b.energy.start), z.day(b.energy.end)) == map[];
    CodesSizes(z, map[], data, picks, m.dir, m.idx, c.consumers, c.producers, id);
    TopAnywhere(z, data, picks, m.dir, m.idx, id);
    ImportCodesCell(z, map[], data, picks, m.dir, m.idx, c.consumers, c.producers, id, dir, n);
    CodesForget(z, data, picks, m.dir, m.idx, id, dir, n, Cell(0.0, 0), Cell(0.0, 0));
  }

  /** A case: a period of A that ends five minutes after midnight; its last block takes the 5 kWh of B. */
  lemma ReversedTakesNeighbour()
    ensures var z := Zone(d => d * (24 * HOUR), t => t / (24 * HOUR), t => t % (24 * HOUR), t => t, 0);
            var id := RowId(1, 0);
            var row := Row([0.0, 0.0, 0.0, 5.0, 0.0, 0.0], [], [0, 0, 0, 1, 0, 0], []);
            var db := Db(map[id := row], map["A" := Meter(0, 0, Consumer, None, None), "B" := Meter(1, 1, Consumer, None, None)]);
            var src := Energy(0, 24 * HOUR + 300000, [CodeData(Con, [Value(24 * HOUR, 24 * HOUR + 300000, 1, 7.0)])]);
            var b := Block("A", Energy(24 * HOUR, 24 * HOUR + 300000 - QUARTER, src.data), None);
            && OnDayOf(z, src, 1) == [b.energy] && CellOf(db.lines, id, Consumer, 3).kwh == 5.0
            && CellOf(StoreBlock(z, db, b).lines, id, Consumer, 3) == Cell(0.0, 0)
  {
    var z := Zone(d => d * (24 * HOUR), t => t / (24 * HOUR), t => t % (24 * HOUR), t => t, 0);
    var id := RowId(1, 0);
    var row := Row([0.0, 0.0, 0.0, 5.0, 0.0, 0.0], [], [0, 0, 0, 1, 0, 0], []);
    var db := Db(map[id := row], map["A" := Meter(0, 0, Consumer, None, None), "B" := Meter(1, 1, Consumer, None, None)]);
    var v := Value(24 * HOUR, 24 * HOUR + 300000, 1, 7.0);
    OneOnDay(z, Energy(0, 24 * HOUR + 300000, [CodeData(Con, [v])]), 1, Con, v);
    ReversedTakes(z, db, "A", v, 24 * HOUR + 300000 - QUARTER, 3);
  }

  lemma ReversedTakes(z: Zone, db: Db, point: string, v: Value, end: int, n: nat)
    requires point in db.meta && db.meta[point].dir == Consumer && db.meta[point].idx == 0 && z.day(end) < z.day(v.from) && n != 0
    ensures var b := Block(point, Energy(v.from, end, [CodeData(Con, [v])]), None);
            CellOf(StoreBlock(z, db, b).lines, z.Row(v.from), Consumer, n) == Cell(0.0, 0)
  {
    var b := Block(point, Energy(v.from, end, [CodeData(Con, [v])]), None);
    OneConsumed(z, b.energy.data, v);
    ReversedForgets(z, db, b, z.Row(v.from), Consumer, n);
  }
}
