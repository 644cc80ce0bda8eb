/** The day blocks of messages, and what a run of messages must leave in the store: the same as
    importing its messages one after the other. */
module ImportSpec {
  import opened Calendar
  import opened Rows
  import opened Registry
  import opened Regroup
  import opened StoreSpec
  import opened StoreOrder
  import opened DaySplit
  import opened Runs
  import opened Seqs

  function AsBlocks(point: string, parts: seq<Energy>): (r: seq<Block>)
    ensures |r| == |parts| && forall i :: 0 <= i < |r| ==> r[i] == Block(point, parts[i], None)
  {
    seq(|parts|, i requires 0 <= i < |parts| => Block(point, parts[i], None))
  }

  function BlocksFrom(z: Zone, point: string, energy: seq<Energy>): seq<Block> {
    if energy == [] then [] else AsBlocks(point, Split(z, energy[0])) + BlocksFrom(z, point, energy[1..])
  }

  /** The day blocks Import stores for a message, in its order. */
  function BlocksOf(z: Zone, m: Message): seq<Block> {
    BlocksFrom(z, m.point, m.energy)
  }

  /** The day blocks of the messages idx one after the other. */
  function AllBlocks(z: Zone, msgs: seq<Message>, idx: seq<nat>): seq<Block>
    requires InRange(msgs, idx)
  {
    if idx == [] then [] else BlocksOf(z, msgs[idx[0]]) + AllBlocks(z, msgs, idx[1..])
  }

  /** Every period of the message ends at a local midnight or at least a quarter hour after one. */
  ghost predicate RegularMessage(z: Zone, m: Message) {
    forall e :: e in m.energy ==> RegularEnd(z, e)
  }

  ghost predicate PlainBlocks(z: Zone, point: string, bs: seq<Block>) {
    forall b :: b in bs ==> b.point == point && b.counts.None? && OnDay(z, b, z.day(b.energy.start))
  }

  /** The blocks of a message are those of its metering point, not yet sized. */
  lemma {:induction false} BlocksFromPoint(z: Zone, point: string, energy: seq<Energy>)
    ensures forall b :: b in BlocksFrom(z, point, energy) ==> b.point == point && b.counts.None?
  {
    if energy != [] {
      BlocksFromPoint(z, point, energy[1..]);
    }
  }

  /** The day blocks of a message with regular periods start, end and have their values on one day. */
  lemma RegularIsDaily(z: Zone, m: Message)
    requires z.Valid() && RegularMessage(z, m)
    ensures Daily(z, BlocksOf(z, m))
  {
    BlocksFromPlain(z, m.point, m.energy);
  }

  lemma {:induction false} BlocksFromPlain(z: Zone, point: string, energy: seq<Energy>)
    requires z.Valid() && forall e :: e in energy ==> RegularEnd(z, e)
    ensures PlainBlocks(z, point, BlocksFrom(z, point, energy))
  {
    if energy != [] {
      BlocksFromPlain(z, point, energy[1..]);
      SplitPlain(z, point, energy[0]);
    }
  }

  lemma SplitPlain(z: Zone, point: string, e: Energy)
    requires z.Valid() && RegularEnd(z, e)
    ensures PlainBlocks(z, point, AsBlocks(point, Split(z, e)))
  {
    SplitWithinDays(z, e, z.day(e.start), z.day(e.end));
    PartsOnDays(z, point, Split(z, e));
  }

  lemma PartsOnDays(z: Zone, point: string, parts: seq<Energy>)
    requires forall p :: p in parts ==> WithinDay(z, p, z.day(p.start))
    ensures forall b :: b in AsBlocks(point, parts) ==> OnDay(z, b, z.day(b.energy.start))
  {
    forall b | b in AsBlocks(point, parts) ensures OnDay(z, b, z.day(b.energy.start)) {
      assert b.energy in parts;
      WithinIsOn(z, b);
    }
  }

  lemma WithinIsOn(z: Zone, b: Block)
    requires WithinDay(z, b.energy, z.day(b.energy.start))
    ensures OnDay(z, b, z.day(b.energy.start))
  {
    forall p, v | p in Organize(b.energy.data) && v in b.energy.data[p.source].values ensures z.day(v.from) == z.day(b.energy.start) {
      assert b.energy.data[p.source] in b.energy.data;
    }
  }

  // ----- the plan of a run -----

  function Concat(lists: seq<seq<Block>>): seq<Block> {
    if lists == [] then [] else lists[0] + Concat(lists[1..])
  }

  /** The first block of every message that has one. */
  function Firsts(lists: seq<seq<Block>>): seq<Block> {
    if lists == [] then [] else (if lists[0] == [] then [] else [lists[0][0]]) + Firsts(lists[1..])
  }

  function Stamp(bs: seq<Block>, c: Counts): (r: seq<Block>)
    ensures |r| == |bs| && forall i :: 0 <= i < |r| ==> r[i] == bs[i].(counts := Some(c))
  {
    seq(|bs|, i requires 0 <= i < |bs| => bs[i].(counts := Some(c)))
  }

  /** Every block with the counts after its message's first block was registered. */
  ghost function StampLists(meta: Meta, lists: seq<seq<Block>>): seq<Block>
    decreases |lists|
  {
    if lists == [] then []
    else if lists[0] == [] then StampLists(meta, lists[1..])
    else
      var m := Register(meta, lists[0][0].point, DirectionOf(lists[0][0].energy.data));
      Stamp(lists[0], Info(m)) + StampLists(m, lists[1..])
  }

  ghost predicate OnePoint(bs: seq<Block>) {
    forall b :: b in bs ==> b.point == bs[0].point
  }

  lemma {:induction false} KnownPoint(meta: Meta, bs: seq<Block>, point: string)
    requires point in meta && forall b :: b in bs ==> b.point == point
    ensures RegisterAll(meta, bs) == meta && Stamped(meta, bs) == Stamp(bs, Info(meta))
    decreases |bs|
  {
    if bs != [] {
      assert bs[0] in bs;
      KnownPoint(meta, bs[1..], point);
      assert Stamped(meta, bs) == [bs[0].(counts := Some(Info(meta)))] + Stamp(bs[1..], Info(meta));
    }
  }

  lemma FirstOfPoint(meta: Meta, bs: seq<Block>)
    requires bs != [] && OnePoint(bs)
    ensures var m := Register(meta, bs[0].point, DirectionOf(bs[0].energy.data));
            RegisterAll(meta, bs) == m && Stamped(meta, bs) == Stamp(bs, Info(m))
  {
    var m := Register(meta, bs[0].point, DirectionOf(bs[0].energy.data));
    KnownPoint(m, bs[1..], bs[0].point);
    assert Stamped(meta, bs) == [bs[0].(counts := Some(Info(m)))] + Stamp(bs[1..], Info(m));
  }

  lemma StampedCons(meta: Meta, b: Block, rest: seq<Block>)
    ensures var m := Register(meta, b.point, DirectionOf(b.energy.data));
            Stamped(meta, [b] + rest) == [b.(counts := Some(Info(m)))] + Stamped(m, rest)
  {
    assert ([b] + rest)[1..] == rest;
  }

  lemma {:induction false} StampedConcat(meta: Meta, a: seq<Block>, b: seq<Block>)
    ensures Stamped(meta, a + b) == Stamped(meta, a) + Stamped(RegisterAll(meta, a), b)
    decreases |a|
  {
    if a == [] {
      assert a + b == b;
    } else {
      var m := Register(meta, a[0].point, DirectionOf(a[0].energy.data));
      assert (a + b)[1..] == a[1..] + b;
      StampedConcat(m, a[1..], b);
      StampedCons(meta, a[0], a[1..] + b);
      StampedCons(meta, a[0], a[1..]);
      assert a == [a[0]] + a[1..] && a + b == [a[0]] + (a[1..] + b);
      Assoc([a[0].(counts := Some(Info(m)))], Stamped(m, a[1..]), Stamped(RegisterAll(m, a[1..]), b));
    }
  }

  /** Registering the first blocks and stamping message by message is what storing block by block
      in message order sees. */
  lemma {:induction false} StampListsIs(meta: Meta, lists: seq<seq<Block>>)
    requires forall bs :: bs in lists ==> OnePoint(bs)
    ensures StampLists(meta, lists) == Stamped(meta, Concat(lists))
    ensures RegisterAll(meta, Firsts(lists)) == RegisterAll(meta, Concat(lists))
    decreases |lists|
  {
    if lists != [] {
      var head, rest := lists[0], lists[1..];
      if head == [] {
        assert head + Concat(rest) == Concat(rest);
        assert [] + Firsts(rest) == Firsts(rest);
        StampListsIs(meta, rest);
      } else {
        var m := Register(meta, head[0].point, DirectionOf(head[0].energy.data));
        FirstOfPoint(meta, head);
        StampListsIs(m, rest);
        StampedConcat(meta, head, Concat(rest));
        RegisterAllConcat(meta, head, Concat(rest));
        RegisterAllConcat(meta, [head[0]], Firsts(rest));
        RegisterOne(meta, head[0]);
      }
    }
  }

  /** A planned run: registered first, every block stamped, stored day by day. */
  lemma RunByDays(z: Zone, db: Db, lists: seq<seq<Block>>, keys: seq<int>)
    requires z.Valid() && NoRepeat(keys)
    requires forall bs :: bs in lists ==> OnePoint(bs)
    requires forall b :: b in Concat(lists) ==> b.counts.None? && OnDay(z, b, z.day(b.energy.start))
    requires forall b :: b in StampLists(db.meta, lists) ==> Day(z)(b) in keys
    ensures StoreAll(z, Db(db.lines, RegisterAll(db.meta, Firsts(lists))), Grouped(Day(z), StampLists(db.meta, lists), keys))
         == StoreAll(z, db, Concat(lists))
  {
    var all := Concat(lists);
    var meta := RegisterAll(db.meta, all);
    StampListsIs(db.meta, lists);
    var stamped := Stamped(db.meta, all);
    RegisterAllKeeps(db.meta, all);
    forall b | b in stamped ensures Prepared(meta, b) && OnDay(z, b, z.day(b.energy.start)) {
      var i :| 0 <= i < |stamped| && stamped[i] == b;
      assert all[i] in all;
      assert b.energy == all[i].energy && b.point == all[i].point;
    }
    ByDays(z, Db(db.lines, meta), stamped, keys);
    RegisterAhead(z, db, all);
  }
}
