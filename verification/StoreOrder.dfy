/** What one store sees of the meta record while blocks are stored in order. */
module StoreOrder {
  import opened Calendar
  import opened Rows
  import opened Registry
  import opened StoreSpec

  ghost predicate SameMeter(m: Meter, n: Meter) {
    m.id == n.id && m.idx == n.idx && m.dir == n.dir
  }

  /** The records differ at most in the periods. */
  ghost predicate Alike(m: Meta, n: Meta) {
    m.Keys == n.Keys && forall p :: p in m ==> SameMeter(m[p], n[p])
  }

  lemma AlikeCounts(m: Meta, n: Meta, d: Direction)
    requires Alike(m, n)
    ensures Names(m, d) == Names(n, d) && MaxIdx(m, d) == MaxIdx(n, d)
  {
    assert Names(m, d) == Names(n, d);
    MaxIdxMax(n, d);
    MaxIdxIs(m, d, MaxIdx(n, d));
  }

  lemma AlikeInfo(m: Meta, n: Meta)
    requires Alike(m, n)
    ensures Info(m) == Info(n)
  {
    AlikeCounts(m, n, Consumer);
    AlikeCounts(m, n, Producer);
  }

  lemma AlikeRegister(m: Meta, n: Meta, name: string, dir: Direction)
    requires Alike(m, n)
    ensures Alike(Register(m, name, dir), Register(n, name, dir))
  {
    AlikeCounts(m, n, dir);
    assert |m| == |m.Keys| == |n.Keys| == |n|;
  }

  lemma WidenKeepsMeter(z: Zone, m: Meter, begin: int, end: int)
    ensures SameMeter(Widen(z, m, begin, end), m)
  {
  }

  lemma AlikeWiden(z: Zone, m: Meta, n: Meta, name: string, begin: int, end: int)
    requires Alike(m, n)
    ensures Alike(WidenAt(z, m, name, begin, end), n)
  {
    if name in m {
      WidenKeepsMeter(z, m[name], begin, end);
    }
  }

  /** Storing registers as RegisterAll does. */
  lemma {:induction false} StoreAllRegisters(z: Zone, db: Db, meta: Meta, blocks: seq<Block>)
    requires Alike(db.meta, meta)
    ensures Alike(StoreAll(z, db, blocks).meta, RegisterAll(meta, blocks))
    decreases |blocks|
  {
    if blocks != [] {
      var b := blocks[0];
      AlikeRegister(db.meta, meta, b.point, DirectionOf(b.energy.data));
      AlikeWiden(z, Registered(db, b), Register(meta, b.point, DirectionOf(b.energy.data)), b.point, b.energy.start, b.energy.end);
      StoreAllRegisters(z, StoreBlock(z, db, b), Register(meta, b.point, DirectionOf(b.energy.data)), blocks[1..]);
    }
  }

  lemma {:induction false} RegisterAllConcat(meta: Meta, a: seq<Block>, b: seq<Block>)
    ensures RegisterAll(meta, a + b) == RegisterAll(RegisterAll(meta, a), b)
    decreases |a|
  {
    if a == [] {
      assert a + b == b;
    } else {
      assert (a + b)[1..] == a[1..] + b;
      RegisterAllConcat(Register(meta, a[0].point, DirectionOf(a[0].energy.data)), a[1..], b);
    }
  }

  lemma RegisterAllNext(meta: Meta, blocks: seq<Block>, i: nat)
    requires i < |blocks|
    ensures RegisterAll(meta, blocks[..i + 1])
         == Register(RegisterAll(meta, blocks[..i]), blocks[i].point, DirectionOf(blocks[i].energy.data))
  {
    assert blocks[..i + 1] == blocks[..i] + [blocks[i]];
    RegisterAllConcat(meta, blocks[..i], [blocks[i]]);
    RegisterOne(RegisterAll(meta, blocks[..i]), blocks[i]);
  }

  lemma RegisterOne(meta: Meta, b: Block)
    ensures RegisterAll(meta, [b]) == Register(meta, b.point, DirectionOf(b.energy.data))
  {
    assert [b][1..] == [];
  }

  lemma RegisterAllPrefix(meta: Meta, a: seq<Block>, b: seq<Block>, p: string)
    requires p in RegisterAll(meta, a)
    ensures p in RegisterAll(meta, a + b) && RegisterAll(meta, a + b)[p] == RegisterAll(meta, a)[p]
  {
    RegisterAllConcat(meta, a, b);
    RegisterAllKeeps(RegisterAll(meta, a), b);
  }

  lemma RegisteredAlike(z: Zone, db: Db, blocks: seq<Block>, i: nat)
    requires i < |blocks|
    ensures Alike(Registered(StoreAll(z, db, blocks[..i]), blocks[i]), RegisterAll(db.meta, blocks[..i + 1]))
  {
    var b := blocks[i];
    var before := StoreAll(z, db, blocks[..i]);
    StoreAllRegisters(z, db, db.meta, blocks[..i]);
    RegisterAllNext(db.meta, blocks, i);
    AlikeRegister(before.meta, RegisterAll(db.meta, blocks[..i]), b.point, DirectionOf(b.energy.data));
  }

  lemma RegisteredFirst(meta: Meta, blocks: seq<Block>, i: nat)
    requires i < |blocks|
    ensures var p := blocks[i].point;
            && p in RegisterAll(meta, blocks[..i + 1])
            && p in RegisterAll(meta, blocks)
            && RegisterAll(meta, blocks)[p] == RegisterAll(meta, blocks[..i + 1])[p]
  {
    var a, b := blocks[..i + 1], blocks[i + 1..];
    assert blocks == a + b;
    assert blocks[i] == a[i] && a[i] in a;
    RegisterAllKeeps(meta, a);
    RegisterAllPrefix(meta, a, b, a[i].point);
  }

  lemma AlikeAt(m: Meta, n: Meta, all: Meta, p: string)
    requires Alike(m, n) && p in m && p in all && n[p] == all[p]
    ensures SameMeter(m[p], all[p]) && Info(m) == Info(n)
  {
    AlikeInfo(m, n);
  }

  /** Block i meets the same slot and the same counts whether the metering points are registered
      block by block or all at the start. */
  lemma MetaAtBlock(z: Zone, db: Db, blocks: seq<Block>, i: nat)
    requires i < |blocks|
    ensures var m := Registered(StoreAll(z, db, blocks[..i]), blocks[i]);
            var all := RegisterAll(db.meta, blocks);
            && blocks[i].point in all
            && SameMeter(m[blocks[i].point], all[blocks[i].point])
            && Info(m) == Info(RegisterAll(db.meta, blocks[..i + 1]))
  {
    RegisteredAlike(z, db, blocks, i);
    RegisteredFirst(db.meta, blocks, i);
    AlikeAt(Registered(StoreAll(z, db, blocks[..i]), blocks[i]), RegisterAll(db.meta, blocks[..i + 1]),
            RegisterAll(db.meta, blocks), blocks[i].point);
  }

  ghost function WidenAll(z: Zone, meta: Meta, blocks: seq<Block>): (r: Meta)
    ensures r.Keys == meta.Keys
    decreases |blocks|
  {
    if blocks == [] then meta
    else WidenAll(z, WidenAt(z, meta, blocks[0].point, blocks[0].energy.start, blocks[0].energy.end), blocks[1..])
  }

  /** The periods after registering everything first and widening last. */
  lemma {:induction false} StoreAllPeriods(z: Zone, db: Db, blocks: seq<Block>)
    ensures StoreAll(z, db, blocks).meta == WidenAll(z, RegisterAll(db.meta, blocks), blocks)
    decreases |blocks|
  {
    if blocks != [] {
      var b := blocks[0];
      StoreAllPeriods(z, StoreBlock(z, db, b), blocks[1..]);
      WidenBeforeRegistering(z, Registered(db, b), b.point, b.energy.start, b.energy.end, blocks[1..]);
    }
  }

  /** Storing one more block. */
  lemma StoreAllNext(z: Zone, db: Db, blocks: seq<Block>, i: nat)
    requires i < |blocks|
    ensures StoreAll(z, db, blocks[..i + 1]) == StoreBlock(z, StoreAll(z, db, blocks[..i]), blocks[i])
  {
    assert blocks[..i + 1] == blocks[..i] + [blocks[i]];
    StoreAllConcat(z, db, blocks[..i], [blocks[i]]);
  }

  /** db is the store after the first i blocks. */
  ghost predicate After(z: Zone, start: Db, blocks: seq<Block>, i: nat, db: Db)
    requires i <= |blocks|
  {
    db == StoreAll(z, start, blocks[..i])
  }

  lemma AfterNone(z: Zone, start: Db, blocks: seq<Block>)
    ensures After(z, start, blocks, 0, start)
  {
  }

  lemma AfterNext(z: Zone, start: Db, blocks: seq<Block>, i: nat, db: Db)
    requires i < |blocks| && After(z, start, blocks, i, db)
    ensures After(z, start, blocks, i + 1, StoreBlock(z, db, blocks[i]))
  {
    StoreAllNext(z, start, blocks, i);
  }
}
