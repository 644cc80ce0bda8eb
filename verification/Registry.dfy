/** The meta record cpmeta/0: registration of metering points and their periods
    (store/rawDataHelper.go, updateMetaCP in store/importFunctions.go). */
module Registry {
  import opened Calendar
  import opened Rows

  /** A registered metering point. The period bounds are the instants their date strings denote;
      None is a bound never written. */
  datatype Meter = Meter(id: nat, idx: nat, dir: Direction, start: Option<int>, end: Option<int>)

  /** The record by metering point name. */
  type Meta = map<string, Meter>

  datatype Counts = Counts(consumers: nat, producers: nat, maxConsumer: int, maxProducer: int)

  ghost function Names(meta: Meta, dir: Direction): set<string> {
    set n | n in meta && meta[n].dir == dir
  }

  /** m is the highest index of the direction, -1 without any. */
  ghost predicate IsMaxIdx(meta: Meta, dir: Direction, m: int) {
    && -1 <= m
    && (forall n :: n in Names(meta, dir) ==> meta[n].idx <= m)
    && (m == -1 || exists n :: n in Names(meta, dir) && meta[n].idx == m)
  }

  lemma {:induction false} MaxIdxExists(meta: Meta, dir: Direction)
    ensures exists m :: IsMaxIdx(meta, dir, m)
    decreases |meta|
  {
    if meta == map[] {
      assert IsMaxIdx(meta, dir, -1);
    } else {
      var n :| n in meta;
      var rest := meta - {n};
      assert meta == rest[n := meta[n]];
      MaxIdxExists(rest, dir);
      var m :| IsMaxIdx(rest, dir, m);
      var m' := if meta[n].dir == dir && m < meta[n].idx then meta[n].idx else m;
      if m' != -1 {
        var w :| w in meta && meta[w].dir == dir && meta[w].idx == m';
        assert w in Names(meta, dir);
      }
      assert IsMaxIdx(meta, dir, m');
    }
  }

  ghost function MaxIdx(meta: Meta, dir: Direction): (m: int)
    ensures -1 <= m
  {
    MaxIdxExists(meta, dir);
    var m :| IsMaxIdx(meta, dir, m);
    m
  }

  lemma MaxIdxMax(meta: Meta, dir: Direction)
    ensures IsMaxIdx(meta, dir, MaxIdx(meta, dir))
  {
    MaxIdxExists(meta, dir);
  }

  /** metaInfoOf. */
  ghost function Info(meta: Meta): Counts {
    Counts(|Names(meta, Consumer)|, |Names(meta, Producer)|, MaxIdx(meta, Consumer), MaxIdx(meta, Producer))
  }

  /** registerMeteringPoint: an unknown metering point gets the next index of its direction. */
  ghost function Register(meta: Meta, name: string, dir: Direction): (r: Meta)
    ensures name in r
  {
    if name in meta then meta
    else meta[name := Meter(|meta|, (MaxIdx(meta, dir) + 1) as nat, dir, None, None)]
  }

  /** What registration does to the counts kept in memory. */
  function Bumped(c: Counts, dir: Direction): Counts {
    match dir
    case Consumer => c.(consumers := c.consumers + 1, maxConsumer := c.maxConsumer + 1)
    case Producer => c.(producers := c.producers + 1, maxProducer := c.maxProducer + 1)
  }

  lemma MaxIdxIs(meta: Meta, dir: Direction, m: int)
    requires IsMaxIdx(meta, dir, m)
    ensures MaxIdx(meta, dir) == m
  {
    MaxIdxMax(meta, dir);
  }

  lemma RegisterCounts(meta: Meta, name: string, dir: Direction, d: Direction)
    requires name !in meta
    ensures var r := Register(meta, name, dir);
            var one := if d == dir then 1 else 0;
            |Names(r, d)| == |Names(meta, d)| + one && MaxIdx(r, d) == MaxIdx(meta, d) + one
  {
    var r := Register(meta, name, dir);
    MaxIdxMax(meta, d);
    if d == dir {
      assert Names(r, d) == Names(meta, d) + {name};
      assert name in Names(r, d);
      MaxIdxIs(r, d, MaxIdx(meta, d) + 1);
    } else {
      assert Names(r, d) == Names(meta, d);
      MaxIdxIs(r, d, MaxIdx(meta, d));
    }
  }

  /** Counting on equals counting afresh. */
  lemma RegisterInfo(meta: Meta, name: string, dir: Direction)
    ensures Info(Register(meta, name, dir)) == if name in meta then Info(meta) else Bumped(Info(meta), dir)
  {
    if name !in meta {
      RegisterCounts(meta, name, dir, Consumer);
      RegisterCounts(meta, name, dir, Producer);
    }
  }

  /** No two metering points of a direction share an index. */
  ghost predicate Unique(meta: Meta) {
    forall m, n :: m in meta && n in meta && m != n && meta[m].dir == meta[n].dir ==> meta[m].idx != meta[n].idx
  }

  lemma RegisterUnique(meta: Meta, name: string, dir: Direction)
    requires Unique(meta)
    ensures Unique(Register(meta, name, dir))
  {
    var r := Register(meta, name, dir);
    MaxIdxMax(meta, dir);
    if name !in meta {
      forall n | n in meta && meta[n].dir == dir ensures meta[n].idx != r[name].idx {
        assert n in Names(meta, dir);
      }
    }
  }

  // ----- periods -----

  /** updateMetaCP: a bound outside the stored period replaces it. A start never written counts as
      now, an end never written as one second after the epoch. */
  function Widen(z: Zone, m: Meter, begin: int, end: int): (r: Meter)
    ensures r.(start := m.start, end := m.end) == m
  {
    var s := if m.start.Some? then m.start.value else z.now;
    var e := if m.end.Some? then m.end.value else 1000;
    m.(start := if begin < s then Some(z.stamp(begin)) else m.start,
       end := if e < end then Some(z.stamp(end)) else m.end)
  }

  function WidenAt(z: Zone, meta: Meta, name: string, begin: int, end: int): (r: Meta)
    ensures r.Keys == meta.Keys
  {
    if name in meta then meta[name := Widen(z, meta[name], begin, end)] else meta
  }

  lemma WidenTwice(z: Zone, m: Meter, begin: int, end: int)
    ensures Widen(z, Widen(z, m, begin, end), begin, end) == Widen(z, m, begin, end)
  {
  }

  /** Periods of different days may be applied in either order, although a bound is stored as a
      wall-clock string that the autumn hour makes ambiguous. */
  lemma WidenCommutes(z: Zone, m: Meter, b1: int, e1: int, b2: int, e2: int)
    requires z.Valid()
    requires z.day(b1) == z.day(e1) && z.day(b2) == z.day(e2) && z.day(b1) < z.day(b2)
    ensures Widen(z, Widen(z, m, b1, e1), b2, e2) == Widen(z, Widen(z, m, b2, e2), b1, e1)
  {
    Earlier(z, b1, b2);
    Earlier(z, z.stamp(b1), b2);
    Earlier(z, b1, z.stamp(b2));
    Earlier(z, e1, e2);
    Earlier(z, z.stamp(e1), e2);
    Earlier(z, e1, z.stamp(e2));
  }

  lemma Earlier(z: Zone, s: int, t: int)
    requires z.Valid() && z.day(s) < z.day(t)
    ensures s < t
  {
    if t <= s {
      DayMonotone(z, t, s);
    }
  }

  lemma WidenKeepsNames(z: Zone, meta: Meta, name: string, begin: int, end: int, d: Direction)
    ensures var w := WidenAt(z, meta, name, begin, end);
            Names(w, d) == Names(meta, d) && MaxIdx(w, d) == MaxIdx(meta, d)
  {
    var w := WidenAt(z, meta, name, begin, end);
    assert Names(w, d) == Names(meta, d);
    assert forall n :: n in Names(meta, d) ==> w[n].idx == meta[n].idx;
    MaxIdxMax(meta, d);
    MaxIdxIs(w, d, MaxIdx(meta, d));
  }

  lemma WidenKeepsInfo(z: Zone, meta: Meta, name: string, begin: int, end: int)
    ensures Info(WidenAt(z, meta, name, begin, end)) == Info(meta)
  {
    WidenKeepsNames(z, meta, name, begin, end, Consumer);
    WidenKeepsNames(z, meta, name, begin, end, Producer);
  }

  /** Registration does not look at periods, and widening does not look at other metering points. */
  lemma RegisterWidenCommute(z: Zone, meta: Meta, name: string, dir: Direction, other: string, begin: int, end: int)
    requires other in meta
    ensures Register(WidenAt(z, meta, other, begin, end), name, dir) == WidenAt(z, Register(meta, name, dir), other, begin, end)
  {
    if name !in meta {
      var w := WidenAt(z, meta, other, begin, end);
      WidenKeepsNames(z, meta, other, begin, end, dir);
      assert |w| == |w.Keys| == |meta.Keys| == |meta|;
    }
  }
}
