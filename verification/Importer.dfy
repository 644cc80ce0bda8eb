/** The import of messages into one store: message by message, and in runs stored day by day
    (mqttclient/importBatch.go, Import in mqttclient/energyExecutor.go). */
module Importer {
  import opened Calendar
  import opened Rows
  import opened Registry
  import opened Regroup
  import opened StoreSpec
  import opened StoreOrder
  import opened DayBatch
  import opened DayArrays
  import opened DaySplit
  import opened Storage
  import opened Runs
  import opened ImportSpec
  import opened Outcomes
  import opened World
  import opened Seqs

  lemma LoggedConcat(a: seq<Block>, b: seq<Block>)
    ensures Logged(a + b) == Logged(a) + Logged(b)
  {
  }

  lemma LoggedHolds(log0: seq<Attempt>, bs: seq<Block>)
    ensures StoredIn((log0 + Logged(bs))[|log0|..], bs)
  {
    assert (log0 + Logged(bs))[|log0|..] == Logged(bs);
    forall b | b in bs ensures Done(b.point, b.energy) in Logged(bs) {
      var i :| 0 <= i < |bs| && bs[i] == b;
      assert Logged(bs)[i] == Done(b.point, b.energy);
    }
  }

  /** The store and its log after the blocks done, from db0 and log0. */
  ghost predicate Reached(z: Zone, db: Db, log: seq<Attempt>, db0: Db, log0: seq<Attempt>, done: seq<Block>) {
    db == StoreAll(z, db0, done) && log == log0 + Logged(done)
  }

  lemma ReachedNext(z: Zone, db: Db, log: seq<Attempt>, db0: Db, log0: seq<Attempt>, done: seq<Block>, more: seq<Block>)
    requires Reached(z, db, log, db0, log0, done)
    ensures Reached(z, StoreAll(z, db, more), log + Logged(more), db0, log0, done + more)
  {
    StoreAllConcat(z, db0, done, more);
    LoggedConcat(done, more);
    Assoc(log0, Logged(done), Logged(more));
  }

  lemma ReachedOne(z: Zone, db: Db, log: seq<Attempt>, db0: Db, log0: seq<Attempt>, done: seq<Block>, b: Block)
    requires Reached(z, db, log, db0, log0, done)
    ensures Reached(z, StoreBlock(z, db, b), log + [Done(b.point, b.energy)], db0, log0, done + [b])
  {
    ReachedNext(z, db, log, db0, log0, done, [b]);
    StoreOne(z, db, b);
  }

  lemma StoreOne(z: Zone, db: Db, b: Block)
    ensures StoreAll(z, db, [b]) == StoreBlock(z, db, b)
    ensures Logged([b]) == [Done(b.point, b.energy)]
  {
    assert [b][1..] == [];
  }

  lemma AsBlocksNext(point: string, parts: seq<Energy>, n: nat, done: seq<Block>)
    requires n < |parts|
    ensures (done + AsBlocks(point, parts[..n])) + [Block(point, parts[n], None)] == done + AsBlocks(point, parts[..n + 1])
  {
    assert AsBlocks(point, parts[..n + 1]) == AsBlocks(point, parts[..n]) + [Block(point, parts[n], None)];
  }

  // ----- message by message -----

  /** Since log0 and faults0 the blocks were tried one by one, errs collecting the errors. */
  ghost predicate Trying(log: seq<Attempt>, log0: seq<Attempt>, faults: nat, faults0: nat, blocks: seq<Block>, errs: ImportErrors, fatal: bool) {
    && log0 <= log && Tried(blocks, log[|log0|..], fatal)
    && errs == Charge(NO_ERRORS, log[|log0|..])
    && faults == faults0 + Refusals(log[|log0|..])
  }

  lemma TryingNext(log: seq<Attempt>, log0: seq<Attempt>, faults: nat, faults0: nat, blocks: seq<Block>, errs: ImportErrors, b: Block, a: Attempt)
    requires Trying(log, log0, faults, faults0, blocks, errs, false) && TriedOne(b, a)
    ensures Trying(log + [a], log0, faults + if a.Refused? then 1 else 0, faults0, blocks + [b], if a.Refused? then errs.Add(a.energy, a.error) else errs, Fatal(a))
  {
    var tries := log[|log0|..];
    assert (log + [a])[|log0|..] == tries + [a];
    TriedNext(blocks, tries, b, a);
    ChargeNext(NO_ERRORS, tries, a);
    RefusalsNext(tries, a);
  }

  lemma TryingMore(log: seq<Attempt>, log0: seq<Attempt>, faults: nat, faults0: nat, blocks: seq<Block>, errs: ImportErrors, more: seq<Block>)
    requires Trying(log, log0, faults, faults0, blocks, errs, true)
    ensures Trying(log, log0, faults, faults0, blocks + more, errs, true)
  {
    TriedMore(blocks, log[|log0|..], more);
  }

  lemma TryingStart(log: seq<Attempt>, faults: nat)
    ensures Trying(log, log, faults, faults, [], NO_ERRORS, false)
  {
    assert log[|log|..] == [];
  }

  lemma AsBlocksCut(point: string, parts: seq<Energy>, n: nat, done: seq<Block>)
    requires n < |parts|
    ensures ((done + AsBlocks(point, parts[..n])) + [Block(point, parts[n], None)]) + AsBlocks(point, parts[n + 1..]) == done + AsBlocks(point, parts)
  {
  }

  /** The day blocks of one period, one by one; stops at a meta record error. */
  method StoreParts(w: Context, st: BowStorage, point: string, parts: seq<Energy>, errs: ImportErrors,
                    ghost db0: Db, ghost log0: seq<Attempt>, ghost faults0: nat, ghost done: seq<Block>)
    returns (errs': ImportErrors, fatal: bool)
    requires Trying(st.log, log0, w.faults, faults0, done, errs, false)
    requires w.faults == faults0 ==> Reached(st.z, st.Db(), st.log, db0, log0, done)
    modifies w, st
    ensures old(w.ended) ==> w.ended
    ensures old(w.faults) <= w.faults && old(st.log) <= st.log
    ensures Trying(st.log, log0, w.faults, faults0, done + AsBlocks(point, parts), errs', fatal)
    ensures w.faults == faults0 ==> Reached(st.z, st.Db(), st.log, db0, log0, done + AsBlocks(point, parts))
  {
    errs', fatal := errs, false;
    ghost var sofar := done;
    assert done + AsBlocks(point, parts[..0]) == done;
    for n := 0 to |parts|
      invariant old(w.ended) ==> w.ended
      invariant old(w.faults) <= w.faults && old(st.log) <= st.log
      invariant sofar == done + AsBlocks(point, parts[..n])
      invariant Trying(st.log, log0, w.faults, faults0, sofar, errs', false)
      invariant w.faults == faults0 ==> Reached(st.z, st.Db(), st.log, db0, log0, sofar)
    {
      var b := Block(point, parts[n], None);
      errs', fatal := StorePart(w, st, b, errs', db0, log0, faults0, sofar);
      AsBlocksNext(point, parts, n, done);
      if fatal {
        AsBlocksCut(point, parts, n, done);
        TryingMore(st.log, log0, w.faults, faults0, sofar + [b], errs', AsBlocks(point, parts[n + 1..]));
        FatalFails(st.log, log0, w.faults, faults0, sofar + [b], errs');
        return;
      }
      sofar := sofar + [b];
    }
    assert parts[..|parts|] == parts;
  }

  lemma FatalFails(log: seq<Attempt>, log0: seq<Attempt>, faults: nat, faults0: nat, blocks: seq<Block>, errs: ImportErrors)
    requires Trying(log, log0, faults, faults0, blocks, errs, true)
    ensures faults0 < faults && errs.Failed()
  {
    var tries := log[|log0|..];
    assert tries[|tries| - 1] in tries;
    NoRefusals(tries);
    ChargeFails(tries);
  }

  /** One day block on its own. */
  method StorePart(w: Context, st: BowStorage, b: Block, errs: ImportErrors, ghost db0: Db, ghost log0: seq<Attempt>, ghost faults0: nat, ghost done: seq<Block>)
    returns (errs': ImportErrors, fatal: bool)
    requires b.counts.None? && Trying(st.log, log0, w.faults, faults0, done, errs, false)
    requires w.faults == faults0 ==> Reached(st.z, st.Db(), st.log, db0, log0, done)
    modifies w, st
    ensures old(w.ended) ==> w.ended
    ensures old(w.faults) <= w.faults && old(st.log) <= st.log
    ensures Trying(st.log, log0, w.faults, faults0, done + [b], errs', fatal)
    ensures w.faults == faults0 ==> Reached(st.z, st.Db(), st.log, db0, log0, done + [b])
  {
    ghost var before, log := st.Db(), st.log;
    errs', fatal := errs, false;
    var err := st.StoreEnergyV2(w, b.point, b.energy);
    if err != Stored {
      errs' := errs'.Add(b.energy, err);
      fatal := err == MetaRecord;
      TryingNext(log, log0, old(w.faults), faults0, done, errs, b, Refused(b.point, b.energy, err));
    } else {
      TryingNext(log, log0, old(w.faults), faults0, done, errs, b, Done(b.point, b.energy));
      if w.faults == faults0 {
        ReachedOne(st.z, before, log, db0, log0, done, b);
      }
    }
  }

  /** The blocks were tried one after the other, all or up to a meta record error. */
  ghost predicate TriedAll(bs: seq<Block>, tries: seq<Attempt>) {
    Tried(bs, tries, false) || Tried(bs, tries, true)
  }

  /** Import: every day block of the message in turn. A failed block does not stop the others, a meta record
      error does; the outcome lists the errors of the refused blocks, one fault each. Without a fault the
      store holds the message. */
  method Import(w: Context, st: BowStorage, m: Message) returns (out: Outcome)
    requires st.z.Valid()
    modifies w, st
    ensures old(w.ended) ==> w.ended
    ensures old(w.faults) <= w.faults && old(st.log) <= st.log
    ensures var tries := st.log[|old(st.log)|..];
            TriedAll(BlocksOf(st.z, m), tries) && out == Charge(NO_ERRORS, tries).Err() && w.faults == old(w.faults) + Refusals(tries)
    ensures out == Ok <==> w.faults == old(w.faults)
    ensures out == Ok || out.Failed?
    ensures out == Ok ==> Reached(st.z, st.Db(), st.log, old(st.Db()), old(st.log), BlocksOf(st.z, m))
  {
    var errs, fatal := NO_ERRORS, false;
    ghost var db0, log0, faults0 := st.Db(), st.log, w.faults;
    ghost var done: seq<Block> := [];
    ImportStart(st.z, db0, log0, faults0);
    for i := 0 to |m.energy|
      invariant old(w.ended) ==> w.ended
      invariant ImportSo(st.z, st.Db(), st.log, db0, log0, w.faults, faults0, done, errs)
      invariant done + BlocksFrom(st.z, m.point, m.energy[i..]) == BlocksOf(st.z, m)
    {
      errs, fatal, done := ImportEntry(w, st, m, i, errs, db0, log0, faults0, done);
      if fatal {
        return errs.Err();
      }
    }
    assert done + [] == done;
    ChargeFails(st.log[|log0|..]);
    out := errs.Err();
  }

  /** The blocks done were tried, and are stored if none failed. */
  ghost predicate ImportSo(z: Zone, db: Db, log: seq<Attempt>, db0: Db, log0: seq<Attempt>, faults: nat, faults0: nat, done: seq<Block>, errs: ImportErrors) {
    && Trying(log, log0, faults, faults0, done, errs, false)
    && (faults == faults0 ==> Reached(z, db, log, db0, log0, done))
  }

  lemma ImportStart(z: Zone, db: Db, log: seq<Attempt>, faults: nat)
    ensures ImportSo(z, db, log, db, log, faults, faults, [], NO_ERRORS)
  {
    assert Logged([]) == [] && log + [] == log;
    TryingStart(log, faults);
  }

  /** One period of the message. */
  method ImportEntry(w: Context, st: BowStorage, m: Message, i: nat, errs: ImportErrors, ghost db0: Db, ghost log0: seq<Attempt>, ghost faults0: nat, ghost done: seq<Block>)
    returns (errs': ImportErrors, fatal: bool, ghost done': seq<Block>)
    requires st.z.Valid() && i < |m.energy| && ImportSo(st.z, st.Db(), st.log, db0, log0, w.faults, faults0, done, errs)
    requires done + BlocksFrom(st.z, m.point, m.energy[i..]) == BlocksOf(st.z, m)
    modifies w, st
    ensures old(w.ended) ==> w.ended
    ensures !fatal ==> ImportSo(st.z, st.Db(), st.log, db0, log0, w.faults, faults0, done', errs')
    ensures !fatal ==> done' + BlocksFrom(st.z, m.point, m.energy[i + 1..]) == BlocksOf(st.z, m)
    ensures fatal ==> Trying(st.log, log0, w.faults, faults0, BlocksOf(st.z, m), errs', true) && faults0 < w.faults && errs'.Failed()
  {
    var parts := SplitEnergyByDay(st.z, m.energy[i]);
    assert m.energy[i..][1..] == m.energy[i + 1..];
    Assoc(done, AsBlocks(m.point, parts), BlocksFrom(st.z, m.point, m.energy[i + 1..]));
    errs', fatal := StoreParts(w, st, m.point, parts, errs, db0, log0, faults0, done);
    done' := done + AsBlocks(m.point, parts);
    if fatal {
      FatalFails(st.log, log0, w.faults, faults0, done', errs');
      TryingMore(st.log, log0, w.faults, faults0, done', errs', BlocksFrom(st.z, m.point, m.energy[i + 1..]));
    }
  }

  // ----- a run, day by day -----

  lemma {:induction false} OwnedWithBlocks(z: Zone, os: seq<Owned>, k: int)
    ensures Blocks(With(OwnedDay(z), os, k, true)) == With(Day(z), Blocks(os), k, true)
    decreases |os|
  {
    if os != [] {
      OwnedWithBlocks(z, os[1..], k);
      assert Blocks(os)[1..] == Blocks(os[1..]);
      var rest := With(OwnedDay(z), os[1..], k, true);
      assert Blocks([os[0]] + rest) == [os[0].block] + Blocks(rest);
    }
  }

  lemma {:induction false} WithSnoc<B>(key: B -> int, bs: seq<B>, b: B, k: int)
    ensures With(key, bs + [b], k, true) == With(key, bs, k, true) + if key(b) == k then [b] else []
    decreases |bs|
  {
    if bs == [] {
      assert [b][1..] == [];
    } else {
      assert (bs + [b])[1..] == bs[1..] + [b];
      WithSnoc(key, bs[1..], b, k);
    }
  }

  lemma {:induction false} WithNone<B>(key: B -> int, bs: seq<B>, k: int)
    requires forall b :: b in bs ==> key(b) != k
    ensures With(key, bs, k, true) == []
    decreases |bs|
  {
    if bs != [] {
      assert bs[0] in bs;
      WithNone(key, bs[1..], k);
    }
  }

  /** days groups the blocks of all by day, each day in the order of all. */
  ghost predicate DaysAre(z: Zone, days: map<int, seq<Owned>>, all: seq<Owned>) {
    && (forall k :: k in days ==> days[k] == With(OwnedDay(z), all, k, true))
    && (forall o :: o in all ==> OwnedDay(z)(o) in days)
  }

  lemma DaysMore(z: Zone, days: map<int, seq<Owned>>, all: seq<Owned>, o: Owned)
    requires DaysAre(z, days, all)
    ensures var k := OwnedDay(z)(o);
            DaysAre(z, days[k := (if k in days then days[k] else []) + [o]], all + [o])
  {
    var k := OwnedDay(z)(o);
    var days' := days[k := (if k in days then days[k] else []) + [o]];
    forall j | j in days' ensures days'[j] == With(OwnedDay(z), all + [o], j, true) {
      WithSnoc(OwnedDay(z), all, o, j);
      if j !in days {
        WithNone(OwnedDay(z), all, j);
      }
    }
  }

  function Own(bs: seq<Block>, i: nat): (r: seq<Owned>)
    ensures |r| == |bs| && forall n :: 0 <= n < |r| ==> r[n] == Owned(bs[n], i)
  {
    seq(|bs|, n requires 0 <= n < |bs| => Owned(bs[n], i))
  }

  ghost predicate Grouping(z: Zone, days: map<int, seq<Owned>>, pending: map<nat, nat>, all: seq<Owned>) {
    DaysAre(z, days, all) && PendingIs(pending, all)
  }

  lemma GroupingMore(z: Zone, days: map<int, seq<Owned>>, pending: map<nat, nat>, all: seq<Owned>, o: Owned)
    requires Grouping(z, days, pending, all)
    ensures var k := OwnedDay(z)(o);
            Grouping(z, days[k := (if k in days then days[k] else []) + [o]], pending[o.owner := Pending(pending, o.owner) + 1], all + [o])
  {
    DaysMore(z, days, all, o);
    PendingMore(pending, o, all);
  }

  lemma OwnNext(all: seq<Owned>, bs: seq<Block>, i: nat, n: nat)
    requires n < |bs|
    ensures (all + Own(bs[..n], i)) + [Owned(bs[n], i)] == all + Own(bs[..n + 1], i)
  {
  }

  /** The blocks of one message into the day groups. */
  method AddBlocks(z: Zone, days: map<int, seq<Owned>>, pending: map<nat, nat>, bs: seq<Block>, i: nat, ghost all: seq<Owned>)
    returns (days': map<int, seq<Owned>>, pending': map<nat, nat>)
    requires Grouping(z, days, pending, all)
    ensures Grouping(z, days', pending', all + Own(bs, i))
  {
    days', pending' := days, pending;
    ghost var sofar := all;
    assert all + Own(bs[..0], i) == all;
    for n := 0 to |bs|
      invariant sofar == all + Own(bs[..n], i)
      invariant Grouping(z, days', pending', sofar)
    {
      var o := Owned(bs[n], i);
      var k := OwnedDay(z)(o);
      GroupingMore(z, days', pending', sofar, o);
      OwnNext(all, bs, i, n);
      days' := days'[k := (if k in days' then days'[k] else []) + [o]];
      pending' := pending'[i := Pending(pending', i) + 1];
      sofar := sofar + [o];
    }
    assert bs[..|bs|] == bs;
  }

  ghost predicate ListsAre(z: Zone, msgs: seq<Message>, run: seq<nat>, lists: seq<seq<Block>>)
    requires InRange(msgs, run)
  {
    |lists| <= |run| && forall r :: 0 <= r < |lists| ==> lists[r] == BlocksOf(z, msgs[run[r]])
  }

  /** The blocks of every message of the run, and the first ones. */
  method CutRun(z: Zone, msgs: seq<Message>, run: seq<nat>) returns (lists: seq<seq<Block>>, firsts: seq<Block>)
    requires z.Valid() && InRange(msgs, run)
    ensures |lists| == |run| && ListsAre(z, msgs, run, lists)
    ensures firsts == Firsts(lists)
  {
    lists, firsts := [], [];
    for r := 0 to |run|
      invariant |lists| == r && ListsAre(z, msgs, run, lists)
      invariant firsts == Firsts(lists)
    {
      var bs := CutMessage(z, msgs[run[r]]);
      FirstsSnoc(lists, bs);
      ListsSnoc(z, msgs, run, lists, bs);
      firsts := firsts + if bs == [] then [] else [bs[0]];
      lists := lists + [bs];
    }
  }

  method CutMessage(z: Zone, m: Message) returns (bs: seq<Block>)
    requires z.Valid()
    ensures bs == BlocksOf(z, m)
  {
    bs := [];
    for e := 0 to |m.energy|
      invariant bs + BlocksFrom(z, m.point, m.energy[e..]) == BlocksOf(z, m)
    {
      var parts := SplitEnergyByDay(z, m.energy[e]);
      assert m.energy[e..][1..] == m.energy[e + 1..];
      Assoc(bs, AsBlocks(m.point, parts), BlocksFrom(z, m.point, m.energy[e + 1..]));
      bs := bs + AsBlocks(m.point, parts);
    }
  }

  lemma ListsSnoc(z: Zone, msgs: seq<Message>, run: seq<nat>, lists: seq<seq<Block>>, bs: seq<Block>)
    requires InRange(msgs, run) && |lists| < |run| && ListsAre(z, msgs, run, lists) && bs == BlocksOf(z, msgs[run[|lists|]])
    ensures ListsAre(z, msgs, run, lists + [bs])
  {
  }

  lemma {:induction false} FirstsSnoc(lists: seq<seq<Block>>, bs: seq<Block>)
    ensures Firsts(lists + [bs]) == Firsts(lists) + if bs == [] then [] else [bs[0]]
    decreases |lists|
  {
    if lists == [] {
      assert [bs][1..] == [];
    } else {
      var head := if lists[0] == [] then [] else [lists[0][0]];
      assert (lists + [bs])[1..] == lists[1..] + [bs] && (lists + [bs])[0] == lists[0];
      FirstsSnoc(lists[1..], bs);
      Assoc(head, Firsts(lists[1..]), if bs == [] then [] else [bs[0]]);
    }
  }

  /** The block list of one message, sized with its counts if the metas could be registered. */
  function Sized(bs: seq<Block>, counts: Option<seq<Counts>>, f: nat): seq<Block> {
    if bs == [] || counts.None? || |counts.value| <= f then bs else Stamp(bs, counts.value[f])
  }

  function Next(bs: seq<Block>, f: nat): nat {
    if bs == [] then f else f + 1
  }

  /** Every block of the run with its message, in message order. */
  function OwnRun(lists: seq<seq<Block>>, run: seq<nat>, counts: Option<seq<Counts>>, f: nat): seq<Owned>
    requires |lists| == |run|
    decreases |lists|
  {
    if lists == [] then []
    else Own(Sized(lists[0], counts, f), run[0]) + OwnRun(lists[1..], run[1..], counts, Next(lists[0], f))
  }

  /** The run's blocks into day groups. */
  method GroupRun(z: Zone, run: seq<nat>, lists: seq<seq<Block>>, counts: Option<seq<Counts>>)
    returns (days: map<int, seq<Owned>>, pending: map<nat, nat>)
    requires |lists| == |run|
    ensures Grouping(z, days, pending, OwnRun(lists, run, counts, 0))
  {
    days, pending := map[], map[];
    ghost var all: seq<Owned> := [];
    var f := 0;
    for r := 0 to |run|
      invariant Grouping(z, days, pending, all)
      invariant all + OwnRun(lists[r..], run[r..], counts, f) == OwnRun(lists, run, counts, 0)
    {
      var bs := Sized(lists[r], counts, f);
      days, pending := AddBlocks(z, days, pending, bs, run[r], all);
      assert lists[r..][1..] == lists[r + 1..] && run[r..][1..] == run[r + 1..];
      Assoc(all, Own(bs, run[r]), OwnRun(lists[r + 1..], run[r + 1..], counts, Next(lists[r], f)));
      all := all + Own(bs, run[r]);
      f := Next(lists[r], f);
    }
    assert all + [] == all;
  }

  lemma CountsTail(meta: Meta, b: Block, rest: seq<Block>, counts: seq<Counts>)
    requires CountsAre(meta, [b] + rest, counts)
    ensures counts[0] == Info(Register(meta, b.point, DirectionOf(b.energy.data)))
    ensures CountsAre(Register(meta, b.point, DirectionOf(b.energy.data)), rest, counts[1..])
  {
    var m := Register(meta, b.point, DirectionOf(b.energy.data));
    var all := [b] + rest;
    assert all[..1] == [b];
    RegisterOne(meta, b);
    forall i | 0 <= i < |rest| ensures counts[1..][i] == Info(RegisterAll(m, rest[..i + 1])) {
      assert all[..i + 2] == [b] + rest[..i + 1];
      RegisterAllConcat(meta, [b], rest[..i + 1]);
    }
  }

  lemma {:induction false} OwnRunStamps(meta: Meta, lists: seq<seq<Block>>, run: seq<nat>, counts: seq<Counts>, f: nat)
    requires |lists| == |run| && f <= |counts| && CountsAre(meta, Firsts(lists), counts[f..])
    ensures Blocks(OwnRun(lists, run, Some(counts), f)) == StampLists(meta, lists)
    decreases |lists|
  {
    if lists != [] {
      var bs, rest := lists[0], lists[1..];
      if bs == [] {
        FirstsSkip(lists);
        OwnRunStamps(meta, rest, run[1..], counts, f);
        assert OwnRun(lists, run, Some(counts), f) == OwnRun(rest, run[1..], Some(counts), f);
      } else {
        var m := Register(meta, bs[0].point, DirectionOf(bs[0].energy.data));
        StampsNext(meta, lists, counts, f, m);
        OwnRunStamps(m, rest, run[1..], counts, f + 1);
        BlocksOwn(Stamp(bs, Info(m)), run[0], OwnRun(rest, run[1..], Some(counts), f + 1));
      }
    }
  }

  lemma FirstsSkip(lists: seq<seq<Block>>)
    requires lists != [] && lists[0] == []
    ensures Firsts(lists) == Firsts(lists[1..])
  {
    assert [] + Firsts(lists[1..]) == Firsts(lists[1..]);
  }

  lemma StampsNext(meta: Meta, lists: seq<seq<Block>>, counts: seq<Counts>, f: nat, m: Meta)
    requires lists != [] && lists[0] != [] && f <= |counts| && CountsAre(meta, Firsts(lists), counts[f..])
    requires m == Register(meta, lists[0][0].point, DirectionOf(lists[0][0].energy.data))
    ensures f < |counts| && counts[f] == Info(m) && CountsAre(m, Firsts(lists[1..]), counts[f + 1..])
  {
    assert Firsts(lists) == [lists[0][0]] + Firsts(lists[1..]);
    CountsTail(meta, lists[0][0], Firsts(lists[1..]), counts[f..]);
    assert counts[f..][1..] == counts[f + 1..];
  }

  lemma BlocksOwn(bs: seq<Block>, i: nat, tail: seq<Owned>)
    ensures Blocks(Own(bs, i) + tail) == bs + Blocks(tail)
  {
  }

  lemma {:induction false} OwnRunHas(lists: seq<seq<Block>>, run: seq<nat>, counts: Option<seq<Counts>>, f: nat, r: nat, b: Block)
    requires |lists| == |run| && r < |run| && b in lists[r]
    ensures Has(OwnRun(lists, run, counts, f), run[r], b)
    decreases |lists|
  {
    var head, tail := Own(Sized(lists[0], counts, f), run[0]), OwnRun(lists[1..], run[1..], counts, Next(lists[0], f));
    if r == 0 {
      var j :| 0 <= j < |lists[0]| && lists[0][j] == b;
      assert (head + tail)[j] == head[j];
      assert head[j].block.energy == b.energy && head[j] in head + tail;
    } else {
      OwnRunHas(lists[1..], run[1..], counts, Next(lists[0], f), r - 1, b);
      var o :| o in tail && o.owner == run[r] && o.block.point == b.point && o.block.energy == b.energy;
      assert o in head + tail;
    }
  }

  // ----- one day of a run -----

  lemma Suffix(log0: seq<Attempt>, a: seq<Attempt>, b: seq<Attempt>)
    requires log0 <= a <= b
    ensures a[|log0|..] <= b[|log0|..]
  {
  }

  /** What is left of the run: counted in pending, the rest stored or refused, and errors only for that. */
  ghost predicate Books(all: seq<Owned>, left: seq<Owned>, pending: map<nat, nat>, log: seq<Attempt>, errors: Errors) {
    PendingIs(pending, left) && Accounted(all, left, log, errors) && Charged(all, log, errors) && forall o :: o in left ==> o in all
  }

  /** Ticking off a block that is stored or refused. */
  lemma BooksDone(all: seq<Owned>, o: Owned, tail: seq<Owned>, pending: map<nat, nat>, log: seq<Attempt>, errors: Errors,
                  log': seq<Attempt>, errors': Errors)
    requires Books(all, [o] + tail, pending, log, errors) && log <= log' && KeepsErrors(errors, errors') && Settled(o, log', errors') && Charged(all, log', errors')
    ensures 0 < Pending(pending, o.owner)
    ensures Books(all, tail, pending[o.owner := Pending(pending, o.owner) - 1], log', errors')
  {
    PendingDone(pending, o, tail);
    AccountedLater(all, [o] + tail, log, errors, tail, log', errors');
    assert forall x :: x in tail ==> x in [o] + tail;
  }

  lemma BooksLater(all: seq<Owned>, left: seq<Owned>, pending: map<nat, nat>, log: seq<Attempt>, errors: Errors, log': seq<Attempt>)
    requires Books(all, left, pending, log, errors) && log <= log'
    ensures Books(all, left, pending, log', errors)
  {
    AccountedLater(all, left, log, errors, left, log', errors);
    assert log' == log + log'[|log|..];
    ChargedLater(all, log, log'[|log|..], errors);
  }

  lemma NextOfDay(day: seq<Owned>, j: nat, rest: seq<Owned>)
    requires j < |day|
    ensures day[j..] + rest == [day[j]] + (day[j + 1..] + rest)
  {
  }

  /** All blocks of a stored day batch. */
  method TickDay(day: seq<Owned>, pending: map<nat, nat>, ghost all: seq<Owned>, ghost rest: seq<Owned>, ghost log: seq<Attempt>, ghost errors: Errors)
    returns (pending': map<nat, nat>)
    requires Books(all, day + rest, pending, log, errors)
    requires StoredIn(log, Blocks(day))
    ensures Books(all, rest, pending', log, errors)
  {
    pending' := pending;
    assert day[0..] == day;
    for j := 0 to |day|
      invariant Books(all, day[j..] + rest, pending', log, errors)
    {
      var o := day[j];
      NextOfDay(day, j, rest);
      assert Blocks(day)[j] in Blocks(day);
      BooksDone(all, o, day[j + 1..] + rest, pending', log, errors, log, errors);
      pending' := pending'[o.owner := Pending(pending', o.owner) - 1];
    }
    assert day[|day|..] + rest == rest;
  }

  /** Every refused block of the day is charged to its message. */
  function ChargeDay(errors: Errors, day: seq<Owned>, tries: seq<Attempt>): Errors
    requires |tries| <= |day|
  {
    if tries == [] then errors
    else
      var n := |tries| - 1;
      var before := ChargeDay(errors, day, tries[..n]);
      if tries[n].Refused? && tries[n].error != MetaRecord then before[day[n].owner := ErrorsOf(before, day[n].owner).Add(tries[n].energy, tries[n].error)] else before
  }

  lemma ChargeDayNext(errors: Errors, day: seq<Owned>, tries: seq<Attempt>, a: Attempt)
    requires |tries| < |day|
    ensures var before := ChargeDay(errors, day, tries); var i := day[|tries|].owner;
            ChargeDay(errors, day, tries + [a]) == if a.Refused? && a.error != MetaRecord then before[i := ErrorsOf(before, i).Add(a.energy, a.error)] else before
  {
    assert (tries + [a])[..|tries|] == tries;
  }

  lemma {:induction false} ChargeDayNone(errors: Errors, day: seq<Owned>, tries: seq<Attempt>)
    requires |tries| <= |day| && Refusals(tries) == 0
    ensures ChargeDay(errors, day, tries) == errors
  {
    if tries != [] {
      ChargeDayNone(errors, day, tries[..|tries| - 1]);
    }
  }

  /** Blocks of the day were stored on their own: all, or up to a meta record error; only a refused block
      is charged, to its message, and costs one fault. */
  ghost predicate Singly(day: seq<Owned>, ok: bool, tries: seq<Attempt>, errors: Errors, errors': Errors, faults: int) {
    Tried(Blocks(day), tries, !ok) && errors' == ChargeDay(errors, day, tries) && faults == Refusals(tries)
  }

  lemma SinglyStart(day: seq<Owned>, errors: Errors)
    ensures Singly(day[..0], true, [], errors, errors, 0)
  {
    assert Blocks(day[..0]) == [];
  }

  lemma SinglyNext(day: seq<Owned>, j: nat, tries: seq<Attempt>, errors: Errors, errors': Errors, faults: int, a: Attempt)
    requires j < |day| && Singly(day[..j], true, tries, errors, errors', faults) && TriedOne(day[j].block, a)
    ensures Singly(day[..j + 1], !Fatal(a), tries + [a], errors, if a.Refused? && !Fatal(a) then errors'[day[j].owner := ErrorsOf(errors', day[j].owner).Add(a.energy, a.error)] else errors',
                   faults + if a.Refused? then 1 else 0)
  {
    assert Blocks(day[..j + 1]) == Blocks(day[..j]) + [day[j].block];
    TriedNext(Blocks(day[..j]), tries, day[j].block, a);
    ChargePrefix(errors, day[..j], day[..j + 1], tries);
    ChargeDayNext(errors, day[..j + 1], tries, a);
    RefusalsNext(tries, a);
  }

  lemma {:induction false} ChargePrefix(errors: Errors, day: seq<Owned>, day': seq<Owned>, tries: seq<Attempt>)
    requires day <= day' && |tries| <= |day|
    ensures ChargeDay(errors, day, tries) == ChargeDay(errors, day', tries)
  {
    if tries != [] {
      ChargePrefix(errors, day, day', tries[..|tries| - 1]);
    }
  }

  lemma SinglyCut(day: seq<Owned>, j: nat, tries: seq<Attempt>, errors: Errors, errors': Errors, faults: int)
    requires j <= |day| && Singly(day[..j], false, tries, errors, errors', faults)
    ensures Singly(day, false, tries, errors, errors', faults)
  {
    assert Blocks(day) == Blocks(day[..j]) + Blocks(day[j..]);
    TriedMore(Blocks(day[..j]), tries, Blocks(day[j..]));
    ChargePrefix(errors, day[..j], day, tries);
  }

  /** The blocks of a day one by one, after its batch failed; stops at a meta record error. */
  method StoreSingly(w: Context, st: BowStorage, day: seq<Owned>, pending: map<nat, nat>, errors: Errors,
                     ghost all: seq<Owned>, ghost rest: seq<Owned>, ghost log0: seq<Attempt>)
    returns (ok: bool, pending': map<nat, nat>, errors': Errors, ghost left: seq<Owned>)
    requires log0 <= st.log && Books(all, day + rest, pending, st.log[|log0|..], errors)
    modifies w, st
    ensures old(w.ended) ==> w.ended
    ensures old(w.faults) <= w.faults && old(st.log) <= st.log
    ensures Books(all, left + rest, pending', st.log[|log0|..], errors')
    ensures ok ==> left == []
    ensures Singly(day, ok, st.log[|old(st.log)|..], errors, errors', w.faults - old(w.faults))
  {
    pending', errors', left := pending, errors, day;
    SinglyStart(day, errors);
    assert day[0..] == day && st.log[|st.log|..] == [];
    for j := 0 to |day|
      invariant old(w.ended) ==> w.ended
      invariant old(w.faults) <= w.faults
      invariant left == day[j..]
      invariant SinglySo(all, day, j, rest, pending', log0, old(st.log), st.log, errors, errors', w.faults - old(w.faults))
    {
      ok, pending', errors' := StoreAt(w, st, day, j, pending', errors', all, rest, log0, old(st.log), errors, old(w.faults));
      if !ok {
        return;
      }
      left := day[j + 1..];
    }
    assert day[..|day|] == day;
    ok := true;
  }

  /** Block j of the day on its own. */
  method StoreAt(w: Context, st: BowStorage, day: seq<Owned>, j: nat, pending: map<nat, nat>, errors: Errors,
                 ghost all: seq<Owned>, ghost rest: seq<Owned>, ghost log0: seq<Attempt>, ghost log1: seq<Attempt>, ghost errors0: Errors, ghost faults0: nat)
    returns (ok: bool, pending': map<nat, nat>, errors': Errors)
    requires j < |day| && faults0 <= w.faults && SinglySo(all, day, j, rest, pending, log0, log1, st.log, errors0, errors, w.faults - faults0)
    modifies w, st
    ensures old(w.ended) ==> w.ended
    ensures old(w.faults) <= w.faults && log1 <= st.log
    ensures ok ==> SinglySo(all, day, j + 1, rest, pending', log0, log1, st.log, errors0, errors', w.faults - faults0)
    ensures !ok ==> Books(all, day[j..] + rest, pending', st.log[|log0|..], errors') && Singly(day, false, st.log[|log1|..], errors0, errors', w.faults - faults0)
  {
    ghost var log, faults := st.log, w.faults - faults0;
    NextOfDay(day, j, rest);
    ok, pending', errors' := StoreNext(w, st, day[j], pending, errors, all, day[j + 1..] + rest, log0);
    ghost var a := st.log[|log|];
    assert st.log == log + [a];
    SinglyStep(day, j, log1, log, a, errors0, errors, faults);
  }

  /** The next attempt of the day; a fatal one is the last. */
  lemma SinglyStep(day: seq<Owned>, j: nat, log1: seq<Attempt>, log: seq<Attempt>, a: Attempt, errors0: Errors, errors: Errors, faults: int)
    requires j < |day| && log1 <= log && Singly(day[..j], true, log[|log1|..], errors0, errors, faults) && TriedOne(day[j].block, a)
    ensures var errors' := if a.Refused? && !Fatal(a) then errors[day[j].owner := ErrorsOf(errors, day[j].owner).Add(a.energy, a.error)] else errors;
            Singly(if Fatal(a) then day else day[..j + 1], !Fatal(a), (log + [a])[|log1|..], errors0, errors', faults + if a.Refused? then 1 else 0)
  {
    var errors' := if a.Refused? && !Fatal(a) then errors[day[j].owner := ErrorsOf(errors, day[j].owner).Add(a.energy, a.error)] else errors;
    SuffixNext(log1, log, a);
    SinglyNext(day, j, log[|log1|..], errors0, errors, faults, a);
    if Fatal(a) {
      SinglyCut(day, j + 1, (log + [a])[|log1|..], errors0, errors', faults + 1);
    }
  }

  /** The first j blocks of the day are done, and the books tell what is left. */
  ghost predicate SinglySo(all: seq<Owned>, day: seq<Owned>, j: nat, rest: seq<Owned>, pending: map<nat, nat>, log0: seq<Attempt>, log1: seq<Attempt>, log: seq<Attempt>,
                           errors0: Errors, errors: Errors, faults: int) {
    && j <= |day| && log0 <= log1 <= log
    && Books(all, day[j..] + rest, pending, log[|log0|..], errors)
    && Singly(day[..j], true, log[|log1|..], errors0, errors, faults)
  }

  /** One block of the day on its own. */
  method StoreNext(w: Context, st: BowStorage, o: Owned, pending: map<nat, nat>, errors: Errors, ghost all: seq<Owned>, ghost tail: seq<Owned>, ghost log0: seq<Attempt>)
    returns (ok: bool, pending': map<nat, nat>, errors': Errors)
    requires log0 <= st.log && Books(all, [o] + tail, pending, st.log[|log0|..], errors)
    modifies w, st
    ensures old(w.ended) ==> w.ended
    ensures |st.log| == |old(st.log)| + 1 && old(st.log) <= st.log
    ensures var a := st.log[|old(st.log)|];
            && TriedOne(o.block, a) && ok == !Fatal(a) && w.faults == old(w.faults) + (if a.Refused? then 1 else 0)
            && errors' == if a.Refused? && !Fatal(a) then errors[o.owner := ErrorsOf(errors, o.owner).Add(a.energy, a.error)] else errors
    ensures Books(all, if ok then tail else [o] + tail, pending', st.log[|log0|..], errors')
  {
    ghost var log := st.log;
    pending', errors' := pending, errors;
    var err := st.StoreEnergyV2(w, o.block.point, o.block.energy);
    ghost var a := if err == Stored then Done(o.block.point, o.block.energy) else Refused(o.block.point, o.block.energy, err);
    SuffixNext(log0, log, a);
    if err == MetaRecord {
      BooksLater(all, [o] + tail, pending, log[|log0|..], errors, log[|log0|..] + [a]);
      return false, pending', errors';
    }
    SettleNext(all, o, tail, pending, log[|log0|..], errors, a);
    if err != Stored {
      errors' := errors'[o.owner := ErrorsOf(errors', o.owner).Add(o.block.energy, err)];
    }
    pending' := pending'[o.owner := Pending(pending', o.owner) - 1];
    ok := true;
  }

  lemma SuffixNext(log0: seq<Attempt>, log: seq<Attempt>, a: Attempt)
    requires log0 <= log
    ensures (log + [a])[|log0|..] == log[|log0|..] + [a]
  {
  }

  /** A block that was tried and did not end the day is ticked off. */
  lemma SettleNext(all: seq<Owned>, o: Owned, tail: seq<Owned>, pending: map<nat, nat>, log: seq<Attempt>, errors: Errors, a: Attempt)
    requires Books(all, [o] + tail, pending, log, errors) && TriedOne(o.block, a) && !Fatal(a)
    ensures 0 < Pending(pending, o.owner)
    ensures Books(all, tail, pending[o.owner := Pending(pending, o.owner) - 1], log + [a], if a.Refused? then errors[o.owner := ErrorsOf(errors, o.owner).Add(a.energy, a.error)] else errors)
  {
    var errors' := if a.Refused? then errors[o.owner := ErrorsOf(errors, o.owner).Add(a.energy, a.error)] else errors;
    assert o in [o] + tail && a in log + [a];
    if a.Refused? {
      ChargedMore(all, log, errors, o, a.error);
      assert RefusedIn(log + [a], o.block);
    } else {
      ChargedLater(all, log, [a], errors);
    }
    BooksDone(all, o, tail, pending, log, errors, log + [a], errors');
  }

  /** The first fault hits the batch of the day; every further one is a block that a single store refused. */
  ghost predicate Spared(faults: int, refused: nat) {
    if faults == 0 then refused == 0 else refused + 1 <= faults
  }

  /** storeDay: the day as a batch, or block by block if the batch fails for another reason than the
      meta record. False at a meta record error, the blocks not done being left. */
  method StoreDay(w: Context, st: BowStorage, day: seq<Owned>, pending: map<nat, nat>, errors: Errors,
                  ghost all: seq<Owned>, ghost rest: seq<Owned>, ghost log0: seq<Attempt>)
    returns (ok: bool, pending': map<nat, nat>, errors': Errors, ghost left: seq<Owned>)
    requires st.z.Valid()
    requires log0 <= st.log && Books(all, day + rest, pending, st.log[|log0|..], errors)
    modifies w, st
    ensures old(w.ended) ==> w.ended
    ensures old(w.faults) <= w.faults && old(st.log) <= st.log
    ensures Books(all, left + rest, pending', st.log[|log0|..], errors')
    ensures ok ==> left == []
    ensures !ok ==> old(w.faults) < w.faults
    ensures w.faults == old(w.faults) ==> errors' == errors && DayStored(st.z, old(st.Db()), st.Db(), Blocks(day)) && st.log == old(st.log) + Logged(Blocks(day))
    ensures ok && w.faults > old(w.faults) ==> Singly(day, true, st.log[|old(st.log)|..], errors, errors', w.faults - old(w.faults) - 1)
    ensures ok && w.faults == old(w.faults) + 1 ==> errors' == errors && StoredIn(st.log[|old(st.log)|..], Blocks(day))
    ensures Spared(w.faults - old(w.faults), Refusals(st.log[|old(st.log)|..]))
  {
    errors', left := errors, day;
    ghost var log := st.log;
    var err;
    err, pending' := StoreTogether(w, st, day, pending, errors, all, rest, log0);
    if err == Stored {
      assert [] + rest == rest;
      return true, pending', errors', [];
    }
    assert st.log[|log|..] == [];
    if err == MetaRecord {
      return false, pending, errors', left;
    }
    ok, pending', errors', left := StoreSingly(w, st, day, pending, errors', all, rest, log0);
    SinglySpares(day, ok, st.log[|log|..], errors, errors', w.faults - old(w.faults) - 1);
  }

  /** The day as a batch. */
  method StoreTogether(w: Context, st: BowStorage, day: seq<Owned>, pending: map<nat, nat>, ghost errors: Errors,
                       ghost all: seq<Owned>, ghost rest: seq<Owned>, ghost log0: seq<Attempt>)
    returns (err: StoreError, pending': map<nat, nat>)
    requires st.z.Valid()
    requires log0 <= st.log && Books(all, day + rest, pending, st.log[|log0|..], errors)
    modifies w, st
    ensures old(w.ended) ==> w.ended
    ensures w.faults == old(w.faults) + if err == Stored then 0 else 1
    ensures err == Stored ==> DayStored(st.z, old(st.Db()), st.Db(), Blocks(day)) && st.log == old(st.log) + Logged(Blocks(day))
    ensures err == Stored ==> Refusals(st.log[|old(st.log)|..]) == 0 && Books(all, rest, pending', st.log[|log0|..], errors)
    ensures err != Stored ==> st.log == old(st.log) && pending' == pending
  {
    pending' := pending;
    ghost var log := st.log;
    err := st.StoreDayBatch(w, Blocks(day));
    if err == Stored {
      assert st.log[|log|..] == Logged(Blocks(day));
      Suffix(log0, log, st.log);
      BooksLater(all, day + rest, pending, log[|log0|..], errors, st.log[|log0|..]);
      LoggedInSuffix(log0, log, Blocks(day));
      LoggedDone(Blocks(day));
      pending' := TickDay(day, pending, all, rest, st.log[|log0|..], errors);
    }
  }

  /** Blocks on their own, after one fault: without another one all are stored and no message is charged. */
  lemma SinglySpares(day: seq<Owned>, ok: bool, tries: seq<Attempt>, errors: Errors, errors': Errors, faults: int)
    requires Singly(day, ok, tries, errors, errors', faults)
    ensures Spared(faults + 1, Refusals(tries))
    ensures faults == 0 ==> errors' == errors && StoredIn(tries, Blocks(day))
  {
    if Refusals(tries) == 0 {
      TriedFails(Blocks(day), tries, !ok);
      ChargeDayNone(errors, day, tries);
    }
  }

  lemma LoggedDone(bs: seq<Block>)
    ensures Refusals(Logged(bs)) == 0
  {
    NoRefusals(Logged(bs));
  }

  lemma LoggedInSuffix(log0: seq<Attempt>, log: seq<Attempt>, bs: seq<Block>)
    requires log0 <= log
    ensures StoredIn((log + Logged(bs))[|log0|..], bs)
  {
    LoggedHolds(log, bs);
    var all := (log + Logged(bs))[|log0|..];
    forall b | b in bs ensures Done(b.point, b.energy) in all {
      var i :| 0 <= i < |bs| && bs[i] == b;
      assert all[|log| - |log0| + i] == Done(b.point, b.energy);
    }
  }

  // ----- the days of a run -----

  /** The blocks of the days not yet stored. */
  function Remaining(z: Zone, all: seq<Owned>, keys: seq<int>): seq<Owned> {
    Grouped(OwnedDay(z), all, keys)
  }

  lemma {:induction false} CountSplit(z: Zone, all: seq<Owned>, k: int, i: nat)
    ensures CountOwner(all, i) == CountOwner(With(OwnedDay(z), all, k, true), i) + CountOwner(With(OwnedDay(z), all, k, false), i)
    decreases |all|
  {
    if all != [] {
      CountSplit(z, all[1..], k, i);
      var on, off := With(OwnedDay(z), all[1..], k, true), With(OwnedDay(z), all[1..], k, false);
      if OwnedDay(z)(all[0]) == k {
        assert With(OwnedDay(z), all, k, true) == [all[0]] + on && With(OwnedDay(z), all, k, false) == off;
        assert ([all[0]] + on)[1..] == on;
      } else {
        assert With(OwnedDay(z), all, k, false) == [all[0]] + off && With(OwnedDay(z), all, k, true) == on;
        assert ([all[0]] + off)[1..] == off;
      }
    }
  }

  lemma {:induction false} CountGrouped(z: Zone, all: seq<Owned>, keys: seq<int>, i: nat)
    requires NoRepeat(keys) && forall o :: o in all ==> OwnedDay(z)(o) in keys
    ensures CountOwner(Remaining(z, all, keys), i) == CountOwner(all, i)
    decreases |keys|
  {
    assert all != [] ==> all[0] in all;
    if keys != [] {
      var k, others := keys[0], keys[1..];
      assert keys == [k] + others;
      var on, off := With(OwnedDay(z), all, k, true), With(OwnedDay(z), all, k, false);
      CountSplit(z, all, k, i);
      CountGrouped(z, off, others, i);
      GroupedWithout(OwnedDay(z), all, k, others);
      CountConcat(on, Remaining(z, all, others), i);
    }
  }

  lemma {:induction false} GroupedHolds(z: Zone, all: seq<Owned>, keys: seq<int>, o: Owned)
    requires o in all && OwnedDay(z)(o) in keys
    ensures o in Remaining(z, all, keys)
    decreases |keys|
  {
    if OwnedDay(z)(o) != keys[0] {
      GroupedHolds(z, all, keys[1..], o);
    }
  }

  lemma {:induction false} GroupedWithin(z: Zone, all: seq<Owned>, keys: seq<int>, o: Owned)
    requires o in Remaining(z, all, keys)
    ensures o in all
    decreases |keys|
  {
    if keys != [] && o !in With(OwnedDay(z), all, keys[0], true) {
      GroupedWithin(z, all, keys[1..], o);
    } else if keys != [] {
      WithWithin(OwnedDay(z), all, keys[0], o);
    }
  }

  lemma {:induction false} WithWithin(key: Owned -> int, all: seq<Owned>, k: int, o: Owned)
    requires o in With(key, all, k, true)
    ensures o in all
    decreases |all|
  {
    if all != [] && o in With(key, all[1..], k, true) {
      WithWithin(key, all[1..], k, o);
    }
  }

  lemma BooksRegrouped(z: Zone, all: seq<Owned>, keys: seq<int>, pending: map<nat, nat>)
    requires NoRepeat(keys) && (forall o :: o in all ==> OwnedDay(z)(o) in keys) && PendingIs(pending, all)
    ensures Books(all, Remaining(z, all, keys), pending, [], map[])
  {
    forall i: nat ensures Pending(pending, i) == CountOwner(Remaining(z, all, keys), i) {
      CountGrouped(z, all, keys, i);
    }
    forall o | o in all ensures o in Remaining(z, all, keys) {
      GroupedHolds(z, all, keys, o);
    }
    forall o | o in Remaining(z, all, keys) ensures o in all {
      GroupedWithin(z, all, keys, o);
    }
  }

  lemma {:induction false} RemainingBlocks(z: Zone, all: seq<Owned>, keys: seq<int>)
    ensures Blocks(Remaining(z, all, keys)) == Grouped(Day(z), Blocks(all), keys)
    decreases |keys|
  {
    if keys != [] {
      OwnedWithBlocks(z, all, keys[0]);
      RemainingBlocks(z, all, keys[1..]);
      BlocksConcat(With(OwnedDay(z), all, keys[0], true), Remaining(z, all, keys[1..]));
    }
  }

  lemma BlocksConcat(a: seq<Owned>, b: seq<Owned>)
    ensures Blocks(a + b) == Blocks(a) + Blocks(b)
  {
  }

  ghost predicate DailyOwned(z: Zone, all: seq<Owned>) {
    forall o :: o in all ==> OnDay(z, o.block, z.day(o.block.energy.start))
  }

  lemma SameMidnight(z: Zone, s: int, t: int)
    requires z.Valid() && z.DayStart(s) == z.DayStart(t)
    ensures z.day(s) == z.day(t)
  {
    MidnightOrder(z, z.day(s), z.day(t));
    MidnightOrder(z, z.day(t), z.day(s));
  }

  lemma DayOfGroup(z: Zone, all: seq<Owned>, k: int)
    requires z.Valid() && DailyOwned(z, all)
    ensures OneDay(z, Blocks(With(OwnedDay(z), all, k, true)))
  {
    forall o | o in With(OwnedDay(z), all, k, true) ensures z.DayStart(o.block.energy.start) == k {
      assert OwnedDay(z)(o) == k;
    }
    OneDayIf(z, With(OwnedDay(z), all, k, true), k);
  }

  lemma OneDayIf(z: Zone, day: seq<Owned>, k: int)
    requires z.Valid() && DailyOwned(z, day) && forall o :: o in day ==> z.DayStart(o.block.energy.start) == k
    ensures OneDay(z, Blocks(day))
  {
    if day != [] {
      assert day[0] in day;
      forall b | b in Blocks(day) ensures OnDay(z, b, z.day(day[0].block.energy.start)) {
        var i :| 0 <= i < |day| && Blocks(day)[i] == b;
        assert day[i] in day;
        SameMidnight(z, b.energy.start, day[0].block.energy.start);
      }
    }
  }

  ghost predicate CodedOwned(all: seq<Owned>) {
    forall o :: o in all ==> Coded(o.block)
  }

  /** Storing the rest of the days leads to the target. */
  ghost predicate Heading(z: Zone, db: Db, all: seq<Owned>, keys: seq<int>, target: Db) {
    StoreAll(z, db, Blocks(Remaining(z, all, keys))) == target
  }

  lemma HeadingNext(z: Zone, db: Db, all: seq<Owned>, keys: seq<int>, target: Db)
    requires keys != [] && Heading(z, db, all, keys, target)
    ensures Heading(z, StoreAll(z, db, Blocks(With(OwnedDay(z), all, keys[0], true))), all, keys[1..], target)
  {
    var day, rest := With(OwnedDay(z), all, keys[0], true), Remaining(z, all, keys[1..]);
    BlocksConcat(day, rest);
    StoreAllConcat(z, db, Blocks(day), Blocks(rest));
  }

  lemma HeadingEnd(z: Zone, db: Db, all: seq<Owned>, target: Db)
    requires Heading(z, db, all, [], target)
    ensures db == target
  {
    assert Blocks(Remaining(z, all, [])) == [];
  }

  /** The same up to reading back. */
  ghost predicate HeadingLike(z: Zone, db: Db, all: seq<Owned>, keys: seq<int>, target: Db) {
    Like(StoreAll(z, db, Blocks(Remaining(z, all, keys))), target)
  }

  lemma HeadingLikeNext(z: Zone, db: Db, db': Db, all: seq<Owned>, keys: seq<int>, target: Db)
    requires keys != [] && HeadingLike(z, db, all, keys, target)
    requires Like(db', StoreAll(z, db, Blocks(With(OwnedDay(z), all, keys[0], true))))
    ensures HeadingLike(z, db', all, keys[1..], target)
  {
    var day, rest := With(OwnedDay(z), all, keys[0], true), Remaining(z, all, keys[1..]);
    BlocksConcat(day, rest);
    StoreAllConcat(z, db, Blocks(day), Blocks(rest));
    LikeStoreAll(z, db', StoreAll(z, db, Blocks(day)), Blocks(rest));
  }

  lemma HeadingLikeEnd(z: Zone, db: Db, all: seq<Owned>, target: Db)
    requires HeadingLike(z, db, all, [], target)
    ensures Like(db, target)
  {
    assert Blocks(Remaining(z, all, [])) == [];
  }

  /** No fault so far: no error, and for day blocks on the way to the target. */
  ghost predicate Calm(z: Zone, db: Db, all: seq<Owned>, keys: seq<int>, target: Db, errors: Errors) {
    && errors == map[]
    && (DailyOwned(z, all) ==> HeadingLike(z, db, all, keys, target) && (CodedOwned(all) ==> Heading(z, db, all, keys, target)))
  }

  lemma CalmNext(z: Zone, db: Db, db': Db, all: seq<Owned>, keys: seq<int>, target: Db, errors: Errors)
    requires z.Valid() && keys != [] && Calm(z, db, all, keys, target, errors)
    requires DayStored(z, db, db', Blocks(With(OwnedDay(z), all, keys[0], true)))
    ensures Calm(z, db', all, keys[1..], target, errors)
  {
    if DailyOwned(z, all) {
      var day := With(OwnedDay(z), all, keys[0], true);
      DayOfGroup(z, all, keys[0]);
      HeadingLikeNext(z, db, db', all, keys, target);
      if CodedOwned(all) {
        CodedDay(z, db, all, keys[0]);
        HeadingNext(z, db, all, keys, target);
      }
    }
  }

  /** A day whose blocks all carry stored codes is stored with the same arrays. */
  lemma CodedDay(z: Zone, db: Db, all: seq<Owned>, k: int)
    requires CodedOwned(all)
    ensures SameArrays(z, db, Blocks(With(OwnedDay(z), all, k, true)))
  {
    var day := With(OwnedDay(z), all, k, true);
    assert day != [] ==> day[|day| - 1] in day;
    assert day != [] ==> Blocks(day)[|day| - 1] == day[|day| - 1].block;
  }

  /** Faults and refusals since the start of the run. */
  ghost predicate SparedSince(faults0: nat, faults: nat, log0: seq<Attempt>, log: seq<Attempt>) {
    log0 <= log && Spared(faults - faults0, Refusals(log[|log0|..]))
  }

  lemma SparedMore(faults0: nat, faults: nat, faults': nat, log0: seq<Attempt>, log: seq<Attempt>, log': seq<Attempt>)
    requires faults0 <= faults <= faults' && log <= log' && SparedSince(faults0, faults, log0, log)
    requires Spared(faults' - faults, Refusals(log'[|log|..])) || (faults0 < faults && Refusals(log'[|log|..]) <= faults' - faults)
    ensures SparedSince(faults0, faults', log0, log')
  {
    assert log'[|log0|..] == log[|log0|..] + log'[|log|..];
    RefusalsConcat(log[|log0|..], log'[|log|..]);
  }

  /** Before the days keys: the books tell the blocks of these days as left, and without a fault since the
      start all is calm. */
  ghost predicate DaysSo(z: Zone, db: Db, all: seq<Owned>, keys: seq<int>, pending: map<nat, nat>, registered: bool, errors: Errors, log0: seq<Attempt>, log: seq<Attempt>, target: Db, faults0: nat, faults: nat) {
    && faults0 <= faults && log0 <= log
    && Books(all, Remaining(z, all, keys), pending, log[|log0|..], errors)
    && (registered && faults == faults0 ==> Calm(z, db, all, keys, target, errors))
    && SparedSince(faults0, faults, log0, log)
  }

  /** The next day of the run. */
  method StoreNextDay(w: Context, st: BowStorage, days: map<int, seq<Owned>>, keys: seq<int>, pending: map<nat, nat>, errors: Errors,
                      ghost all: seq<Owned>, ghost log0: seq<Attempt>, ghost target: Db, ghost faults0: nat)
    returns (metaOk: bool, pending': map<nat, nat>, errors': Errors, ghost left: seq<Owned>)
    requires st.z.Valid() && keys != [] && keys[0] in days && DaysAre(st.z, days, all)
    requires DaysSo(st.z, st.Db(), all, keys, pending, true, errors, log0, st.log, target, faults0, w.faults)
    modifies w, st
    ensures old(w.ended) ==> w.ended
    ensures faults0 <= w.faults && log0 <= st.log
    ensures Books(all, left, pending', st.log[|log0|..], errors')
    ensures metaOk ==> left == Remaining(st.z, all, keys[1..]) && DaysSo(st.z, st.Db(), all, keys[1..], pending', true, errors', log0, st.log, target, faults0, w.faults)
    ensures !metaOk ==> faults0 < w.faults
    ensures SparedSince(faults0, w.faults, log0, st.log)
  {
    var day := days[keys[0]];
    ghost var rest := Remaining(st.z, all, keys[1..]);
    ghost var before, log, faults := st.Db(), st.log, w.faults;
    metaOk, pending', errors', left := StoreDay(w, st, day, pending, errors, all, rest, log0);
    if w.faults == faults0 {
      CalmNext(st.z, before, st.Db(), all, keys, target, errors);
    }
    SparedMore(faults0, faults, w.faults, log0, log, st.log);
    assert [] + rest == rest;
    left := left + rest;
  }

  /** Before the first day. */
  lemma DaysStart(z: Zone, db: Db, days: map<int, seq<Owned>>, keys: seq<int>, pending: map<nat, nat>, registered: bool, all: seq<Owned>, log: seq<Attempt>, target: Db, faults: nat)
    requires NoRepeat(keys) && (forall k :: k in keys <==> k in days) && Grouping(z, days, pending, all)
    requires registered ==> Calm(z, db, all, keys, target, map[])
    ensures DaysSo(z, db, all, keys, pending, registered, map[], log, log, target, faults, faults)
  {
    forall o | o in all ensures OwnedDay(z)(o) in keys {
      var k := OwnedDay(z)(o);
      assert k in days;
    }
    BooksRegrouped(z, all, keys, pending);
    assert log[|log|..] == [];
  }

  /** The days in ascending order, until a meta record error or the end of the context. */
  method StoreDays(w: Context, st: BowStorage, days: map<int, seq<Owned>>, keys: seq<int>, pending: map<nat, nat>, registered: bool,
                   ghost all: seq<Owned>, ghost target: Db)
    returns (stopped: bool, metaOk: bool, pending': map<nat, nat>, errors: Errors, ghost left: seq<Owned>)
    requires st.z.Valid() && NoRepeat(keys) && (forall k :: k in keys <==> k in days)
    requires Grouping(st.z, days, pending, all)
    requires registered ==> Calm(st.z, st.Db(), all, keys, target, map[])
    modifies w, st
    ensures old(w.ended) ==> w.ended
    ensures old(w.faults) <= w.faults && old(st.log) <= st.log
    ensures stopped ==> w.ended
    ensures Books(all, left, pending', st.log[|old(st.log)|..], errors)
    ensures !stopped && metaOk ==> left == []
    ensures !metaOk ==> !registered || old(w.faults) < w.faults
    ensures registered && w.faults == old(w.faults) && !w.ended ==> Calm(st.z, st.Db(), all, [], target, errors)
    ensures SparedSince(old(w.faults), w.faults, old(st.log), st.log)
  {
    stopped, metaOk, pending', errors := false, registered, pending, map[];
    left := Remaining(st.z, all, keys);
    ghost var log0, faults0 := st.log, w.faults;
    DaysStart(st.z, st.Db(), days, keys, pending, registered, all, log0, target, faults0);
    var n := 0;
    assert keys[0..] == keys;
    while n < |keys|
      invariant 0 <= n <= |keys|
      invariant old(w.ended) ==> w.ended
      invariant !stopped && metaOk == registered && left == Remaining(st.z, all, keys[n..])
      invariant DaysSo(st.z, st.Db(), all, keys[n..], pending', registered, errors, log0, st.log, target, faults0, w.faults)
    {
      stopped := w.Ended();
      if stopped || !metaOk {
        return;
      }
      assert keys[n..][1..] == keys[n + 1..] && keys[n] in keys;
      metaOk, pending', errors, left := StoreNextDay(w, st, days, keys[n..], pending', errors, all, log0, target, faults0);
      if !metaOk {
        return;
      }
      n := n + 1;
    }
    assert keys[|keys|..] == [];
  }

  // ----- a run -----

  lemma {:induction false} ConcatPlain(z: Zone, msgs: seq<Message>, run: seq<nat>, lists: seq<seq<Block>>)
    requires InRange(msgs, run) && |lists| == |run| && ListsAre(z, msgs, run, lists)
    ensures forall b :: b in Concat(lists) ==> b.counts.None?
    ensures Concat(lists) == AllBlocks(z, msgs, run)
    decreases |run|
  {
    if run != [] {
      ConcatPlain(z, msgs, run[1..], lists[1..]);
      BlocksFromPoint(z, msgs[run[0]].point, msgs[run[0]].energy);
      assert forall b :: b in lists[0] ==> b.counts.None?;
    }
  }

  lemma ListsOnePoint(z: Zone, msgs: seq<Message>, run: seq<nat>, lists: seq<seq<Block>>)
    requires InRange(msgs, run) && |lists| == |run| && ListsAre(z, msgs, run, lists)
    ensures forall bs :: bs in lists ==> OnePoint(bs)
  {
    forall bs | bs in lists ensures OnePoint(bs) {
      var r :| 0 <= r < |lists| && lists[r] == bs;
      BlocksFromPoint(z, msgs[run[r]].point, msgs[run[r]].energy);
      assert bs != [] ==> bs[0] in bs;
    }
  }

  /** Sizing the blocks changes neither their days nor their codes. */
  lemma StampedDaily(z: Zone, meta: Meta, all: seq<Owned>, plain: seq<Block>)
    requires Blocks(all) == Stamped(meta, plain)
    ensures DailyOwned(z, all) <==> Daily(z, plain)
    ensures (forall b :: b in plain ==> Coded(b)) ==> CodedOwned(all)
  {
    forall i | 0 <= i < |all| ensures all[i].block.energy == plain[i].energy && all[i] in all && plain[i] in plain {
      assert Blocks(all)[i] == all[i].block;
    }
    if DailyOwned(z, all) {
      forall b | b in plain ensures OnDay(z, b, z.day(b.energy.start)) {
        var i :| 0 <= i < |plain| && plain[i] == b;
        assert OnDay(z, all[i].block, z.day(all[i].block.energy.start));
      }
    }
    if Daily(z, plain) {
      forall o | o in all ensures OnDay(z, o.block, z.day(o.block.energy.start)) {
        var i :| 0 <= i < |all| && all[i] == o;
        assert OnDay(z, plain[i], z.day(plain[i].energy.start));
      }
    }
    if forall b :: b in plain ==> Coded(b) {
      forall o | o in all ensures Coded(o.block) {
        var i :| 0 <= i < |all| && all[i] == o;
        assert Coded(plain[i]);
      }
    }
  }

  lemma KeysHoldDays(z: Zone, all: seq<Owned>, days: map<int, seq<Owned>>, keys: seq<int>)
    requires DaysAre(z, days, all) && forall k :: k in keys <==> k in days
    ensures forall b :: b in Blocks(all) ==> Day(z)(b) in keys
  {
    forall b | b in Blocks(all) ensures Day(z)(b) in keys {
      var i :| 0 <= i < |Blocks(all)| && Blocks(all)[i] == b;
      assert all[i] in all;
      var k := OwnedDay(z)(all[i]);
      assert k in days;
    }
  }

  /** A registered run is on the way to what importing its messages one by one leaves. */
  lemma RunCalm(z: Zone, db0: Db, msgs: seq<Message>, run: seq<nat>, lists: seq<seq<Block>>, all: seq<Owned>, days: map<int, seq<Owned>>, keys: seq<int>)
    requires z.Valid() && InRange(msgs, run) && |lists| == |run| && ListsAre(z, msgs, run, lists)
    requires Blocks(all) == StampLists(db0.meta, lists) && DaysAre(z, days, all)
    requires NoRepeat(keys) && forall k :: k in keys <==> k in days
    ensures Calm(z, Db(db0.lines, RegisterAll(db0.meta, Firsts(lists))), all, keys, StoreAll(z, db0, AllBlocks(z, msgs, run)), map[])
    ensures RunKept(z, msgs, run, all)
  {
    ConcatPlain(z, msgs, run, lists);
    ListsOnePoint(z, msgs, run, lists);
    StampListsIs(db0.meta, lists);
    StampedDaily(z, db0.meta, all, Concat(lists));
    KeysHoldDays(z, all, days, keys);
    if DailyOwned(z, all) {
      RunHeads(z, db0, lists, all, keys);
    }
  }

  lemma RunHeads(z: Zone, db0: Db, lists: seq<seq<Block>>, all: seq<Owned>, keys: seq<int>)
    requires z.Valid() && NoRepeat(keys) && Blocks(all) == StampLists(db0.meta, lists)
    requires (forall bs :: bs in lists ==> OnePoint(bs)) && (forall b :: b in Concat(lists) ==> b.counts.None?) && Daily(z, Concat(lists))
    requires forall b :: b in Blocks(all) ==> Day(z)(b) in keys
    ensures var db := Db(db0.lines, RegisterAll(db0.meta, Firsts(lists)));
            Heading(z, db, all, keys, StoreAll(z, db0, Concat(lists))) && HeadingLike(z, db, all, keys, StoreAll(z, db0, Concat(lists)))
  {
    RunByDays(z, db0, lists, keys);
    RemainingBlocks(z, all, keys);
  }

  /** importOne: Import, or the stop once the context has ended. */
  method ImportOne(w: Context, st: BowStorage, m: Message) returns (out: Outcome)
    requires st.z.Valid()
    modifies w, st
    ensures old(w.ended) ==> w.ended
    ensures old(w.faults) <= w.faults && old(st.log) <= st.log
    ensures Verdict(st.z, out, m, st.log[|old(st.log)|..], w.ended)
    ensures w.faults == old(w.faults) + Refusals(st.log[|old(st.log)|..])
    ensures out.Failed? ==> Refusals(st.log[|old(st.log)|..]) > 0
    ensures w.faults == old(w.faults) && !w.ended ==>
      out == Ok && st.Db() == StoreAll(st.z, old(st.Db()), BlocksOf(st.z, m))
  {
    var ended := w.Ended();
    assert st.log[|st.log|..] == [];
    if ended {
      return Stopped;
    }
    ghost var log := st.log;
    out := Import(w, st, m);
    ImportVerdict(st.z, m, st.log[|log|..], out, w.ended);
  }

  /** What Import says about the message. */
  lemma ImportVerdict(z: Zone, m: Message, tries: seq<Attempt>, out: Outcome, ended: bool)
    requires TriedAll(BlocksOf(z, m), tries) && out == Charge(NO_ERRORS, tries).Err()
    ensures Verdict(z, out, m, tries, ended)
    ensures out.Failed? <==> Refusals(tries) > 0
  {
    ChargeFails(tries);
    if Tried(BlocksOf(z, m), tries, false) {
      TriedFails(BlocksOf(z, m), tries, false);
    } else {
      TriedFails(BlocksOf(z, m), tries, true);
    }
  }

  ghost predicate Verdicts(z: Zone, errs: seq<Outcome>, msgs: seq<Message>, run: seq<nat>, log: seq<Attempt>, ended: bool) {
    |errs| == |msgs| && InRange(msgs, run) && forall r :: 0 <= r < |run| ==> Verdict(z, errs[run[r]], msgs[run[r]], log, ended)
  }

  lemma VerdictsLater(z: Zone, errs: seq<Outcome>, msgs: seq<Message>, run: seq<nat>, log: seq<Attempt>, ended: bool, log': seq<Attempt>, ended': bool)
    requires Verdicts(z, errs, msgs, run, log, ended) && Within(log, log') && (ended ==> ended')
    ensures Verdicts(z, errs, msgs, run, log', ended')
  {
    forall r | 0 <= r < |run| ensures Verdict(z, errs[run[r]], msgs[run[r]], log', ended') {
      VerdictLater(z, errs[run[r]], msgs[run[r]], log, ended, log', ended');
    }
  }

  lemma VerdictsMore(z: Zone, errs: seq<Outcome>, msgs: seq<Message>, run: seq<nat>, i: nat, out: Outcome, log: seq<Attempt>, ended: bool)
    requires Verdicts(z, errs, msgs, run, log, ended) && i < |msgs| && Verdict(z, out, msgs[i], log, ended)
    ensures Verdicts(z, errs[i := out], msgs, run + [i], log, ended)
  {
  }

  /** A later part of the log, and all that came since. */
  lemma SuffixWithin(log0: seq<Attempt>, log: seq<Attempt>, log': seq<Attempt>)
    requires log0 <= log <= log'
    ensures Within(log'[|log|..], log'[|log0|..]) && Within(log[|log0|..], log'[|log0|..])
    ensures Refusals(log'[|log0|..]) == Refusals(log[|log0|..]) + Refusals(log'[|log|..])
  {
    assert log'[|log0|..] == log[|log0|..] + log'[|log|..];
    RefusalsConcat(log[|log0|..], log'[|log|..]);
  }

  ghost predicate Only(errs: seq<Outcome>, errs': seq<Outcome>, run: seq<nat>) {
    |errs'| == |errs| && forall i :: 0 <= i < |errs| && i !in run ==> errs'[i] == errs[i]
  }

  /** The messages of the run that failed. */
  function FailedSet(errs: seq<Outcome>, run: seq<nat>): set<nat> {
    set i | i in run && i < |errs| && errs[i].Failed?
  }

  /** The block of o is one of its message. */
  ghost predicate OwnsBlock(z: Zone, msgs: seq<Message>, o: Owned) {
    o.owner < |msgs| && exists b :: b in BlocksOf(z, msgs[o.owner]) && b.point == o.block.point && b.energy == o.block.energy
  }

  /** The errors of a run name refused blocks of the message. */
  lemma ChargedFails(z: Zone, msgs: seq<Message>, all: seq<Owned>, log: seq<Attempt>, errors: Errors, i: nat)
    requires Charged(all, log, errors) && i in errors && i < |msgs| && forall o :: o in all ==> OwnsBlock(z, msgs, o)
    ensures FailedBy(errors[i], BlocksOf(z, msgs[i]), log)
  {
    forall l | l in errors[i].listed ensures RefusedOne(BlocksOf(z, msgs[i]), l, log) {
      assert RefusedOwned(all, i, l, log);
      var o :| o in all && o.owner == i && o.block.energy == l.0 && Refused(o.block.point, o.block.energy, l.1) in log;
      var b :| b in BlocksOf(z, msgs[i]) && b.point == o.block.point && b.energy == o.block.energy;
    }
  }

  /** The outcome of one message: stopped or imported on its own when blocks are left, else stored
      or failed. */
  method FinishOne(w: Context, st: BowStorage, msgs: seq<Message>, i: nat, pending: map<nat, nat>, errors: Errors, stopped: bool, metaOk: bool,
                   ghost all: seq<Owned>, ghost left: seq<Owned>, ghost log0: seq<Attempt>)
    returns (out: Outcome)
    requires st.z.Valid() && i < |msgs| && log0 <= st.log && Books(all, left, pending, st.log[|log0|..], errors)
    requires stopped ==> w.ended
    requires !stopped && metaOk ==> left == []
    requires forall b :: b in BlocksOf(st.z, msgs[i]) ==> Has(all, i, b)
    requires forall o :: o in all ==> OwnsBlock(st.z, msgs, o)
    modifies w, st
    ensures old(w.ended) ==> w.ended
    ensures old(w.faults) <= w.faults && old(st.log) <= st.log
    ensures Books(all, left, pending, st.log[|log0|..], errors)
    ensures Verdict(st.z, out, msgs[i], st.log[|log0|..], w.ended)
    ensures metaOk ==> st.Db() == old(st.Db()) && st.log == old(st.log) && w.faults == old(w.faults)
    ensures w.faults == old(w.faults) + Refusals(st.log[|old(st.log)|..])
    ensures out.Failed? ==> i in errors || Refusals(st.log[|old(st.log)|..]) > 0
    ensures !stopped && metaOk && errors == map[] ==> out == Ok
  {
    assert st.log[|st.log|..] == [];
    if Pending(pending, i) > 0 && stopped {
      out := Stopped;
    } else if Pending(pending, i) > 0 && !metaOk {
      ghost var log := st.log;
      out := ImportOne(w, st, msgs[i]);
      Suffix(log0, log, st.log);
      SuffixWithin(log0, log, st.log);
      VerdictLater(st.z, out, msgs[i], st.log[|log|..], w.ended, st.log[|log0|..], w.ended);
      BooksLater(all, left, pending, log[|log0|..], errors, st.log[|log0|..]);
    } else {
      out := ErrorsOf(errors, i).Err();
      assert Pending(pending, i) == CountOwner(left, i);
      if out == Ok {
        NothingLeft(all, left, st.log[|log0|..], errors, pending, i, BlocksOf(st.z, msgs[i]));
      } else {
        ChargedFails(st.z, msgs, all, st.log[|log0|..], errors, i);
      }
    }
  }

  /** all holds the blocks of the run's messages, and no others. */
  ghost predicate OwnsRun(z: Zone, msgs: seq<Message>, run: seq<nat>, all: seq<Owned>) {
    && InRange(msgs, run)
    && (forall r :: 0 <= r < |run| ==> forall b :: b in BlocksOf(z, msgs[run[r]]) ==> Has(all, run[r], b))
    && (forall o :: o in all ==> OwnsBlock(z, msgs, o))
  }

  /** The outcomes at the end of a run. */
  method FinishRun(w: Context, st: BowStorage, msgs: seq<Message>, run: seq<nat>, errs: seq<Outcome>, pending: map<nat, nat>, errors: Errors,
                   stopped: bool, metaOk: bool, ghost all: seq<Owned>, ghost left: seq<Owned>, ghost log0: seq<Attempt>)
    returns (errs': seq<Outcome>)
    requires st.z.Valid() && OwnsRun(st.z, msgs, run, all) && |errs| == |msgs|
    requires log0 <= st.log && Books(all, left, pending, st.log[|log0|..], errors)
    requires stopped ==> w.ended
    requires !stopped && metaOk ==> left == []
    modifies w, st
    ensures old(w.ended) ==> w.ended
    ensures old(w.faults) <= w.faults && old(st.log) <= st.log
    ensures Only(errs, errs', run)
    ensures Verdicts(st.z, errs', msgs, run, st.log[|log0|..], w.ended)
    ensures metaOk ==> st.Db() == old(st.Db()) && st.log == old(st.log) && w.faults == old(w.faults)
    ensures w.faults == old(w.faults) + Refusals(st.log[|old(st.log)|..])
    ensures |FailedSet(errs', run)| <= Refusals(st.log[|log0|..])
    ensures !stopped && metaOk && errors == map[] ==> forall r :: 0 <= r < |run| ==> errs'[run[r]] == Ok
  {
    errs' := errs;
    ghost var singles: set<nat> := {};
    ghost var mid, faults0, db := st.log, w.faults, st.Db();
    assert mid[|mid|..] == [];
    for r := 0 to |run|
      invariant old(w.ended) ==> w.ended
      invariant FinishSo(st.z, msgs, run, r, errs, errs', log0, mid, st.log, w.ended, w.faults - faults0, errors, singles)
      invariant Books(all, left, pending, st.log[|log0|..], errors)
      invariant metaOk ==> st.Db() == db && st.log == mid && w.faults == faults0
      invariant !stopped && metaOk && errors == map[] ==> AllOk(errs', run[..r])
    {
      errs', singles := FinishNext(w, st, msgs, run, r, errs', pending, errors, stopped, metaOk, all, left, log0, errs, mid, faults0, singles);
    }
    assert run[..|run|] == run;
    FinishEnd(run, errs', log0, mid, st.log, errors, singles);
  }

  ghost predicate AllOk(errs: seq<Outcome>, run: seq<nat>) {
    forall r :: 0 <= r < |run| ==> run[r] < |errs| && errs[run[r]] == Ok
  }

  /** Message r of the run. */
  method FinishNext(w: Context, st: BowStorage, msgs: seq<Message>, run: seq<nat>, r: nat, errs: seq<Outcome>, pending: map<nat, nat>, errors: Errors,
                    stopped: bool, metaOk: bool, ghost all: seq<Owned>, ghost left: seq<Owned>, ghost log0: seq<Attempt>,
                    ghost errs0: seq<Outcome>, ghost mid: seq<Attempt>, ghost faults0: nat, ghost singles: set<nat>)
    returns (errs': seq<Outcome>, ghost singles': set<nat>)
    requires st.z.Valid() && OwnsRun(st.z, msgs, run, all) && r < |run|
    requires FinishSo(st.z, msgs, run, r, errs0, errs, log0, mid, st.log, w.ended, w.faults - faults0, errors, singles)
    requires Books(all, left, pending, st.log[|log0|..], errors)
    requires stopped ==> w.ended
    requires !stopped && metaOk ==> left == []
    modifies w, st
    ensures old(w.ended) ==> w.ended
    ensures FinishSo(st.z, msgs, run, r + 1, errs0, errs', log0, mid, st.log, w.ended, w.faults - faults0, errors, singles')
    ensures Books(all, left, pending, st.log[|log0|..], errors)
    ensures metaOk ==> st.Db() == old(st.Db()) && st.log == old(st.log) && w.faults == old(w.faults)
    ensures !stopped && metaOk && errors == map[] && AllOk(errs, run[..r]) ==> AllOk(errs', run[..r + 1])
  {
    ghost var log, ended, faults := st.log, w.ended, w.faults;
    var out := FinishOne(w, st, msgs, run[r], pending, errors, stopped, metaOk, all, left, log0);
    FinishStep(st.z, msgs, run, r, errs0, errs, log0, mid, log, ended, faults - faults0, errors, singles, out, st.log, w.ended, w.faults - faults);
    singles' := if out.Failed? && run[r] !in errors then singles + {run[r]} else singles;
    errs' := errs[run[r] := out];
    if !stopped && metaOk && errors == map[] && AllOk(errs, run[..r]) {
      AllOkNext(errs, run, r);
    }
  }

  lemma AllOkNext(errs: seq<Outcome>, run: seq<nat>, r: nat)
    requires r < |run| && run[r] < |errs| && AllOk(errs, run[..r])
    ensures AllOk(errs[run[r] := Ok], run[..r + 1])
  {
    Prefix(run, r);
  }

  /** The outcomes of the first r messages of the run; singles failed on their own after the days. */
  ghost predicate FinishSo(z: Zone, msgs: seq<Message>, run: seq<nat>, r: nat, errs0: seq<Outcome>, errs: seq<Outcome>, log0: seq<Attempt>, mid: seq<Attempt>, log: seq<Attempt>, ended: bool, faults: int,
                           errors: Errors, singles: set<nat>) {
    && r <= |run| && log0 <= mid <= log && Only(errs0, errs, run)
    && Verdicts(z, errs, msgs, run[..r], log[|log0|..], ended)
    && faults == Refusals(log[|mid|..])
    && FailedSet(errs, run[..r]) <= errors.Keys + singles && |singles| <= Refusals(log[|mid|..])
  }

  lemma FinishStep(z: Zone, msgs: seq<Message>, run: seq<nat>, r: nat, errs0: seq<Outcome>, errs: seq<Outcome>, log0: seq<Attempt>, mid: seq<Attempt>, log: seq<Attempt>, ended: bool, faults: int,
                   errors: Errors, singles: set<nat>, out: Outcome, log': seq<Attempt>, ended': bool, faults': int)
    requires FinishSo(z, msgs, run, r, errs0, errs, log0, mid, log, ended, faults, errors, singles) && r < |run| && run[r] < |msgs| && (ended ==> ended')
    requires log <= log' && Verdict(z, out, msgs[run[r]], log'[|log0|..], ended') && faults' == Refusals(log'[|log|..])
    requires out.Failed? ==> run[r] in errors || Refusals(log'[|log|..]) > 0
    ensures FinishSo(z, msgs, run, r + 1, errs0, errs[run[r] := out], log0, mid, log', ended', faults + faults', errors, if out.Failed? && run[r] !in errors then singles + {run[r]} else singles)
  {
    Prefix(run, r);
    SuffixWithin(mid, log, log');
    SuffixWithin(log0, log, log');
    VerdictsLater(z, errs, msgs, run[..r], log[|log0|..], ended, log'[|log0|..], ended');
    VerdictsMore(z, errs, msgs, run[..r], run[r], out, log'[|log0|..], ended');
    FailedMore(errs, run[..r], run[r], out);
    assert run[r] in run;
  }

  lemma FinishEnd(run: seq<nat>, errs: seq<Outcome>, log0: seq<Attempt>, mid: seq<Attempt>, log: seq<Attempt>, errors: Errors, singles: set<nat>)
    requires log0 <= mid <= log && |errors| <= Refusals(mid[|log0|..])
    requires FailedSet(errs, run) <= errors.Keys + singles && |singles| <= Refusals(log[|mid|..])
    ensures |FailedSet(errs, run)| <= Refusals(log[|log0|..])
  {
    SuffixWithin(log0, mid, log);
    assert |errors.Keys + singles| <= |errors.Keys| + |singles|;
    SubsetSize(FailedSet(errs, run), errors.Keys + singles);
  }

  lemma FailedMore(errs: seq<Outcome>, run: seq<nat>, i: nat, out: Outcome)
    requires i < |errs|
    ensures FailedSet(errs[i := out], run + [i]) <= FailedSet(errs, run) + if out.Failed? then {i} else {}
  {
  }

  /** No message is stopped or failed. If every day block lies on one day, the store reads as after
      importing the messages idx one after the other; it holds the same arrays if the blocks also
      carry stored meter codes. */
  ghost predicate Imported(z: Zone, db: Db, db0: Db, errs: seq<Outcome>, msgs: seq<Message>, idx: seq<nat>) {
    && |errs| == |msgs| && InRange(msgs, idx)
    && (forall r :: 0 <= r < |idx| ==> errs[idx[r]] == Ok)
    && (Daily(z, AllBlocks(z, msgs, idx)) ==> LandsOn(db, StoreAll(z, db0, AllBlocks(z, msgs, idx)), AllBlocks(z, msgs, idx)))
  }

  /** db reads as target, and is it if all blocks carry stored codes. */
  ghost predicate LandsOn(db: Db, target: Db, blocks: seq<Block>) {
    Like(db, target) && ((forall b :: b in blocks ==> Coded(b)) ==> db == target)
  }

  lemma {:induction false} OwnRunFrom(z: Zone, msgs: seq<Message>, lists: seq<seq<Block>>, run: seq<nat>, counts: Option<seq<Counts>>, f: nat, o: Owned)
    requires InRange(msgs, run) && |lists| == |run| && ListsAre(z, msgs, run, lists) && o in OwnRun(lists, run, counts, f)
    ensures OwnsBlock(z, msgs, o)
    decreases |lists|
  {
    var head := Own(Sized(lists[0], counts, f), run[0]);
    if o in head {
      var j :| 0 <= j < |head| && head[j] == o;
      assert lists[0][j] in BlocksOf(z, msgs[run[0]]) && o.block.point == lists[0][j].point;
    } else {
      OwnRunFrom(z, msgs, lists[1..], run[1..], counts, Next(lists[0], f), o);
    }
  }

  /** Outcomes and faults of messages: every failed message has a refused block, every refusal is a fault,
      and the first fault is none: it hits the meta record or a whole day. */
  ghost predicate RunSpared(errs: seq<Outcome>, run: seq<nat>, faults: int, log: seq<Attempt>) {
    |FailedSet(errs, run)| <= Refusals(log) && Spared(faults, Refusals(log))
  }

  /** importRun: register the metering points in message order, then store day by day in ascending
      order. False after a meta record error; then the unfinished messages were imported one by one. */
  method ImportRun(w: Context, st: BowStorage, msgs: seq<Message>, run: seq<nat>, errs: seq<Outcome>)
    returns (ok: bool, errs': seq<Outcome>)
    requires st.z.Valid() && InRange(msgs, run) && |errs| == |msgs|
    modifies w, st
    ensures old(w.ended) ==> w.ended
    ensures old(w.faults) <= w.faults && old(st.log) <= st.log
    ensures Only(errs, errs', run)
    ensures Verdicts(st.z, errs', msgs, run, st.log[|old(st.log)|..], w.ended)
    ensures RunSpared(errs', run, w.faults - old(w.faults), st.log[|old(st.log)|..])
    ensures w.faults == old(w.faults) && !w.ended ==> ok && Imported(st.z, st.Db(), old(st.Db()), errs', msgs, run)
  {
    ghost var log0 := st.log;
    ghost var target := StoreAll(st.z, st.Db(), AllBlocks(st.z, msgs, run));
    var registered, days, keys, pending;
    ghost var all;
    registered, days, keys, pending, all := PrepareRun(w, st, msgs, run);
    ghost var faults := w.faults;
    var stopped, metaOk, pending', errors;
    ghost var left;
    stopped, metaOk, pending', errors, left := StoreDays(w, st, days, keys, pending, registered, all, target);
    ghost var db, later, log := st.Db(), w.faults, st.log;
    errs' := FinishRun(w, st, msgs, run, errs, pending', errors, stopped, metaOk, all, left, log0);
    ok := metaOk;
    RunFaults(old(w.faults), faults, later, w.faults, log0, log, st.log, metaOk);
    if w.faults == old(w.faults) && !w.ended {
      CalmEnd(st.z, db, msgs, run, all, target, errors);
    }
  }

  /** Cut the messages, register the metering points and group the blocks by day. */
  method PrepareRun(w: Context, st: BowStorage, msgs: seq<Message>, run: seq<nat>)
    returns (registered: bool, days: map<int, seq<Owned>>, keys: seq<int>, pending: map<nat, nat>, ghost all: seq<Owned>)
    requires st.z.Valid() && InRange(msgs, run)
    modifies w, st`meta
    ensures old(w.ended) ==> w.ended
    ensures w.faults == old(w.faults) + if registered then 0 else 1
    ensures Rising(keys) && (forall k :: k in keys <==> k in days) && Grouping(st.z, days, pending, all)
    ensures OwnsRun(st.z, msgs, run, all)
    ensures registered ==> Calm(st.z, st.Db(), all, keys, StoreAll(st.z, old(st.Db()), AllBlocks(st.z, msgs, run)), map[]) && RunKept(st.z, msgs, run, all)
  {
    ghost var db0 := st.Db();
    var lists, firsts := CutRun(st.z, msgs, run);
    var err, counts := st.RegisterBlocks(w, firsts);
    registered := err == Stored;
    var stamps := if registered then Some(counts) else None;
    days, pending := GroupRun(st.z, run, lists, stamps);
    all := OwnRun(lists, run, stamps, 0);
    keys := SortKeys(days.Keys);
    OwnRunOwns(st.z, msgs, run, lists, stamps);
    if registered {
      assert counts[0..] == counts;
      OwnRunStamps(db0.meta, lists, run, counts, 0);
      RunCalm(st.z, db0, msgs, run, lists, all, days, keys);
    }
  }

  /** The blocks of the run on one day and with stored codes stay so with their counts. */
  ghost predicate RunKept(z: Zone, msgs: seq<Message>, run: seq<nat>, all: seq<Owned>)
    requires InRange(msgs, run)
  {
    && (Daily(z, AllBlocks(z, msgs, run)) ==> DailyOwned(z, all))
    && ((forall b :: b in AllBlocks(z, msgs, run) ==> Coded(b)) ==> CodedOwned(all))
  }

  /** Calm until the end: the target is reached. */
  lemma CalmEnd(z: Zone, db: Db, msgs: seq<Message>, run: seq<nat>, all: seq<Owned>, target: Db, errors: Errors)
    requires InRange(msgs, run) && RunKept(z, msgs, run, all) && Calm(z, db, all, [], target, errors)
    ensures Daily(z, AllBlocks(z, msgs, run)) ==> LandsOn(db, target, AllBlocks(z, msgs, run))
  {
    if Daily(z, AllBlocks(z, msgs, run)) {
      HeadingLikeEnd(z, db, all, target);
      if CodedOwned(all) {
        HeadingEnd(z, db, all, target);
      }
    }
  }

  lemma OwnRunOwns(z: Zone, msgs: seq<Message>, run: seq<nat>, lists: seq<seq<Block>>, stamps: Option<seq<Counts>>)
    requires InRange(msgs, run) && |lists| == |run| && ListsAre(z, msgs, run, lists)
    ensures OwnsRun(z, msgs, run, OwnRun(lists, run, stamps, 0))
  {
    var all := OwnRun(lists, run, stamps, 0);
    forall r, b | 0 <= r < |run| && b in BlocksOf(z, msgs[run[r]]) ensures Has(all, run[r], b) {
      OwnRunHas(lists, run, stamps, 0, r, b);
    }
    forall o | o in all ensures OwnsBlock(z, msgs, o) {
      OwnRunFrom(z, msgs, lists, run, stamps, 0, o);
    }
  }

  /** Registration, the days, and the messages imported on their own after a meta record error. */
  lemma RunFaults(f0: nat, f1: nat, f2: nat, f3: nat, log0: seq<Attempt>, log: seq<Attempt>, log': seq<Attempt>, metaOk: bool)
    requires f0 <= f1 <= f0 + 1 && f1 <= f2 <= f3 && log0 <= log <= log' && SparedSince(f1, f2, log0, log)
    requires f3 == f2 + Refusals(log'[|log|..]) && (metaOk ==> f3 == f2) && (!metaOk ==> f0 < f2)
    ensures Spared(f3 - f0, Refusals(log'[|log0|..]))
  {
    SuffixWithin(log0, log, log');
  }
}
