/** The report engine: filling gaps between the stored rows, joining qualities, and caching rows into time
    buckets (store/engine.go, store/aggregate_function.go). Times are quarter hours. */
module Engine {
  import opened Calendar
  import opened World

  /** The values and qualities of a line. */
  datatype Cells = Cells(cons: seq<real>, prod: seq<real>, qcons: seq<int>, qprod: seq<int>)
  datatype Line = Line(time: int, cells: Cells)

  function Zeros(n: nat): seq<real> {
    seq(n, _ => 0.0)
  }

  function Same(n: nat, q: int): seq<int> {
    seq(n, _ => q)
  }

  /** A row for a quarter hour without data. */
  function FillCells(m: nat, n: nat): Cells {
    Cells(Zeros(m), Zeros(n), Same(m, 0), Same(n, 0))
  }

  // ----- Query: filling gaps -----

  ghost predicate Ascending(lines: seq<Line>) {
    forall i, j :: 0 <= i < j < |lines| ==> lines[i].time < lines[j].time
  }

  /** The fill rows between two times, for the wall times that exist. */
  method FillGap(exists_: int -> bool, from: int, upTo: int, fill: Cells) returns (fills: seq<Line>)
    requires from < upTo
    ensures Ascending(fills)
    ensures forall l :: l in fills ==> from < l.time < upTo && exists_(l.time) && l.cells == fill
    ensures forall t :: from < t < upTo && exists_(t) ==> Line(t, fill) in fills
  {
    fills := [];
    var diff := upTo - from - 1;
    for i := 0 to diff
      invariant Ascending(fills)
      invariant forall l :: l in fills ==> from < l.time < from + i + 1 && exists_(l.time) && l.cells == fill
      invariant forall t :: from < t < from + i + 1 && exists_(t) ==> Line(t, fill) in fills
    {
      var n := from + i + 1;
      if exists_(n) {
        assert forall k :: 0 <= k < |fills| ==> fills[k] in fills;
        fills := fills + [Line(n, fill)];
      }
    }
  }

  /** What the consumer of a query gets for the rows: them, and fill rows for the other existing wall
      times between the first and the last of them, each once, in order. */
  ghost predicate Fed(exists_: int -> bool, rows: seq<Line>, fed: seq<Line>, fill: Cells) {
    && Ascending(fed)
    && (forall r :: r in rows ==> r in fed)
    && (forall l :: l in fed ==> l in rows || (l.cells == fill && exists_(l.time) && Between(rows, l.time)))
    && (forall t :: Between(rows, t) && exists_(t) ==> exists i :: 0 <= i < |fed| && fed[i].time == t)
    && (rows == [] ==> fed == [])
    && (rows != [] ==> fed != [] && fed[|fed| - 1] == rows[|rows| - 1])
  }

  predicate Between(rows: seq<Line>, t: int) {
    rows != [] && rows[0].time <= t <= rows[|rows| - 1].time
  }

  lemma FedNext(exists_: int -> bool, rows: seq<Line>, fed: seq<Line>, fills: seq<Line>, fill: Cells, l: Line)
    requires Fed(exists_, rows, fed, fill) && Ascending(rows + [l]) && Ascending(fills)
    requires rows == [] ==> fills == []
    requires rows != [] ==> GapFilled(exists_, rows[|rows| - 1].time, l.time, fills, fill)
    ensures Fed(exists_, rows + [l], fed + fills + [l], fill)
  {
    var more := rows + [l];
    var all := fed + fills + [l];
    assert more[|more| - 1] == l;
    FedAscends(rows, fed, fills, l);
    forall x | x in all ensures x in more || (x.cells == fill && exists_(x.time) && Between(more, x.time)) {
      if x in fed || x in fills {
        assert x in fed ==> x in rows || Between(rows, x.time);
        BetweenMore(rows, l, x.time);
      }
    }
    forall t | Between(more, t) && exists_(t) ensures exists i :: 0 <= i < |all| && all[i].time == t {
      FedFinds(exists_, rows, fed, fills, fill, l, t);
    }
  }

  lemma BetweenMore(rows: seq<Line>, l: Line, t: int)
    requires Ascending(rows + [l])
    ensures Between(rows, t) ==> Between(rows + [l], t)
    ensures rows != [] && rows[|rows| - 1].time < t < l.time ==> Between(rows + [l], t)
  {
    var more := rows + [l];
    if rows != [] {
      assert more[0] == rows[0] && more[|rows| - 1] == rows[|rows| - 1] && more[|rows|] == l;
      assert more[|rows| - 1].time < more[|rows|].time;
      assert |rows| > 1 ==> more[0].time < more[|rows| - 1].time;
    }
  }

  ghost predicate GapFilled(exists_: int -> bool, from: int, upTo: int, fills: seq<Line>, fill: Cells) {
    && (forall l :: l in fills ==> from < l.time < upTo && exists_(l.time) && l.cells == fill)
    && (forall t :: from < t < upTo && exists_(t) ==> Line(t, fill) in fills)
  }

  lemma FedAscends(rows: seq<Line>, fed: seq<Line>, fills: seq<Line>, l: Line)
    requires Ascending(fed) && Ascending(fills) && Ascending(rows + [l])
    requires (rows == [] ==> fed == [] && fills == []) && (rows != [] ==> fed != [] && fed[|fed| - 1] == rows[|rows| - 1])
    requires rows != [] ==> forall x :: x in fills ==> rows[|rows| - 1].time < x.time < l.time
    ensures Ascending(fed + fills + [l])
  {
    var all := fed + fills + [l];
    if rows != [] {
      assert (rows + [l])[|rows| - 1].time < (rows + [l])[|rows|].time;
      forall i, j | 0 <= i < j < |all| ensures all[i].time < all[j].time {
        assert |fed| <= i < |fed| + |fills| ==> fills[i - |fed|] in fills;
        assert |fed| <= j < |fed| + |fills| ==> fills[j - |fed|] in fills;
        assert i < |fed| ==> fed[i].time <= rows[|rows| - 1].time;
      }
    }
  }

  lemma FedFinds(exists_: int -> bool, rows: seq<Line>, fed: seq<Line>, fills: seq<Line>, fill: Cells, l: Line, t: int)
    requires Fed(exists_, rows, fed, fill) && (rows != [] ==> GapFilled(exists_, rows[|rows| - 1].time, l.time, fills, fill))
    requires Between(rows + [l], t) && exists_(t)
    ensures exists i :: 0 <= i < |fed + fills + [l]| && (fed + fills + [l])[i].time == t
  {
    var all := fed + fills + [l];
    if t == l.time {
      assert all[|all| - 1].time == t;
    } else if t <= rows[|rows| - 1].time {
      assert Between(rows, t);
      var i :| 0 <= i < |fed| && fed[i].time == t;
      assert all[i] == fed[i];
    } else {
      assert Line(t, fill) in fills;
      var i :| 0 <= i < |fills| && fills[i] == Line(t, fill);
      assert all[|fed| + i] == fills[i];
    }
  }

  /** One row, after the fill rows since the row before. */
  method FeedRow(exists_: int -> bool, ghost rows: seq<Line>, fed: seq<Line>, pt: Option<int>, l: Line, fill: Cells) returns (fed': seq<Line>)
    requires Fed(exists_, rows, fed, fill) && Ascending(rows + [l]) && pt == if rows == [] then None else Some(rows[|rows| - 1].time)
    requires FilledUp(rows, fed, fill)
    ensures Fed(exists_, rows + [l], fed', fill) && FilledUp(rows + [l], fed', fill)
  {
    var fills: seq<Line> := [];
    if pt.Some? {
      assert (rows + [l])[|rows| - 1].time < (rows + [l])[|rows|].time;
      if pt.value + 1 != l.time {
        fills := FillGap(exists_, pt.value, l.time, fill);
      }
    }
    FedNext(exists_, rows, fed, fills, fill, l);
    FilledUpNext(rows, fed, fills, fill, l);
    fed' := fed + fills + [l];
  }

  lemma RowsNext(rows: seq<Line>, n: nat)
    requires n < |rows| && Ascending(rows)
    ensures rows[..n + 1] == rows[..n] + [rows[n]] && Ascending(rows[..n] + [rows[n]])
    ensures n > 0 ==> rows[..n] != [] && rows[..n][n - 1] == rows[n - 1]
  {
  }

  /** fed is the rows in their order, with fill rows before some of them. */
  ghost predicate FilledUp(rows: seq<Line>, fed: seq<Line>, fill: Cells)
    decreases |rows|
  {
    if rows == [] then fed == []
    else exists k :: 0 <= k < |fed| && FilledUp(rows[..|rows| - 1], fed[..k], fill) && FillsThen(fed, k, fill, rows[|rows| - 1])
  }

  ghost predicate FillsThen(fed: seq<Line>, k: nat, fill: Cells, l: Line) {
    k < |fed| && fed[|fed| - 1] == l && forall i :: k <= i < |fed| - 1 ==> fed[i].cells == fill
  }

  lemma FilledUpNext(rows: seq<Line>, fed: seq<Line>, fills: seq<Line>, fill: Cells, l: Line)
    requires FilledUp(rows, fed, fill) && forall x :: x in fills ==> x.cells == fill
    ensures FilledUp(rows + [l], fed + fills + [l], fill)
  {
    var more, all := rows + [l], fed + fills + [l];
    assert more[..|rows|] == rows && all[..|fed|] == fed;
    forall i | |fed| <= i < |all| - 1 ensures all[i].cells == fill {
      assert all[i] == fills[i - |fed|] && fills[i - |fed|] in fills;
    }
    assert FillsThen(all, |fed|, fill, l);
  }

  /** The loop of Query over the rows. */
  method Query(exists_: int -> bool, rows: seq<Line>, countCons: nat, countProd: nat) returns (fed: seq<Line>)
    requires Ascending(rows)
    ensures Fed(exists_, rows, fed, FillCells(countCons * 3, countProd * 2))
    ensures FilledUp(rows, fed, FillCells(countCons * 3, countProd * 2))
  {
    fed := [];
    var fill := FillCells(countCons * 3, countProd * 2);
    var pt: Option<int> := None;
    for n := 0 to |rows|
      invariant Fed(exists_, rows[..n], fed, fill) && FilledUp(rows[..n], fed, fill)
      invariant pt == if n == 0 then None else Some(rows[n - 1].time)
    {
      RowsNext(rows, n);
      fed := FeedRow(exists_, rows[..n], fed, pt, rows[n], fill);
      pt := Some(rows[n].time);
    }
    assert rows[..|rows|] == rows;
  }

  /** A row as it is read: its id may not be one. */
  datatype Stored = Stored(time: Option<int>, cells: Cells)

  function Readable(stored: seq<Stored>): seq<Line> {
    if stored == [] then []
    else
      var s := stored[|stored| - 1];
      Readable(stored[..|stored| - 1]) + if s.time.Some? then [Line(s.time.value, s.cells)] else []
  }

  datatype Answer = Answered | NoRows | Unreadable | ReadFailed

  /** Query with its errors: no row at all, a first row without a time, and a read error at the start or
      at the end. Rows whose id is no time are left out. */
  method QueryStore(w: Context, exists_: int -> bool, stored: seq<Stored>, countCons: nat, countProd: nat) returns (answer: Answer, fed: seq<Line>)
    requires Ascending(Readable(stored))
    modifies w
    ensures answer == ReadFailed <==> w.faults > old(w.faults)
    ensures answer == NoRows ==> stored == []
    ensures answer == Unreadable ==> stored != [] && stored[0].time.None?
    ensures answer == Answered ==> stored != [] && stored[0].time.Some?
    ensures answer == Answered ==> Fed(exists_, Readable(stored), fed, FillCells(countCons * 3, countProd * 2)) && FilledUp(Readable(stored), fed, FillCells(countCons * 3, countProd * 2))
  {
    fed := [];
    var failed := w.Fails(ReadRows);
    if failed {
      return ReadFailed, fed;
    }
    if stored == [] {
      return NoRows, fed;
    }
    if stored[0].time.None? {
      return Unreadable, fed;
    }
    fed := Query(exists_, Readable(stored), countCons, countProd);
    failed := w.Fails(ReadRows);
    return if failed then ReadFailed else Answered, fed;
  }

  // ----- qualities -----

  /** calcQoV: L1 gives way to anything, else the higher level wins over the lower, but never L1. */
  function Join(current: int, target: int): int {
    if current != 1 then (if target > current && target != 1 then target else current) else target
  }

  /** The order of the lines and of the metering points does not matter to the quality of a report. */
  lemma JoinLaws(a: int, b: int, c: int)
    ensures Join(a, b) == Join(b, a) && Join(Join(a, b), c) == Join(a, Join(b, c)) && Join(a, a) == a && Join(a, 1) == a
  {
  }

  /** The quality of the first slots of every whole block of the width, L1 without any. */
  function Level(q: seq<int>, width: nat): int
    requires 0 < width
    decreases |q|
  {
    if |q| < width then 1 else Join(q[0], Level(q[width..], width))
  }

  /** DeepCopy for a quality array: a missing entry is L0. */
  function SizedLevels(q: seq<int>, n: nat): seq<int> {
    seq(n, i requires 0 <= i < n => if i < |q| then q[i] else 0)
  }

  /** addToCache for a quality array beside n values. */
  function JoinInto(cache: seq<int>, n: nat, q: seq<int>): seq<int> {
    seq(|cache|, i requires 0 <= i < |cache| => if i < n then Join(cache[i], if i < |q| then q[i] else 0) else cache[i])
  }

  /** The slots of the blocks that n slots begin. */
  function Up(n: nat, width: nat): nat
    requires 0 < width
  {
    if n == 0 then 0 else if n <= width then width else width + Up(n - width, width)
  }

  lemma {:induction false} UpFits(n: nat, m: nat, width: nat)
    requires (width == 2 || width == 3) && n <= m && m % width == 0
    ensures n <= Up(n, width) <= m && Up(n, width) % width == 0
    decreases n
  {
    if n > 0 {
      WholeBlocks(m, width);
      if n > width {
        UpFits(n - width, m - width, width);
        NextBlock(Up(n - width, width), width);
      }
    }
  }

  function Tail<T>(s: seq<T>, width: nat): seq<T> {
    if width < |s| then s[width..] else []
  }

  lemma {:induction false} LevelOfJoin(cache: seq<int>, n: nat, q: seq<int>, width: nat)
    requires (width == 2 || width == 3) && n <= |cache| && |cache| % width == 0
    ensures Level(JoinInto(cache, n, q), width) == Join(Level(cache, width), Level(SizedLevels(q, Up(n, width)), width))
    decreases |cache|
  {
    var j := JoinInto(cache, n, q);
    if n == 0 {
      assert j == cache;
      JoinLaws(Level(cache, width), 0, 0);
    } else {
      WholeBlocks(|cache|, width);
      var n', q' := if width < n then n - width else 0, Tail(q, width);
      assert j[width..] == JoinInto(cache[width..], n', q');
      assert SizedLevels(q, Up(n, width))[width..] == SizedLevels(q', Up(n', width));
      LevelOfJoin(cache[width..], n', q', width);
      FourJoins(cache[0], SizedLevels(q, Up(n, width))[0], Level(cache[width..], width), Level(SizedLevels(q', Up(n', width)), width));
    }
  }

  lemma FourJoins(a: int, b: int, c: int, d: int)
    ensures Join(Join(a, b), Join(c, d)) == Join(Join(a, c), Join(b, d))
  {
  }

  lemma WholeBlocks(n: nat, width: nat)
    requires (width == 2 || width == 3) && n > 0 && n % width == 0
    ensures n >= width && (n - width) % width == 0
  {
    if width == 2 {
      assert n % 2 == 0;
    } else {
      assert n % 3 == 0;
    }
  }

  lemma NextBlock(n: nat, width: nat)
    requires (width == 2 || width == 3) && n % width == 0
    ensures (n + width) % width == 0
  {
    if width == 2 {
      assert (n + 2) % 2 == 0;
    } else {
      assert (n + 3) % 3 == 0;
    }
  }

  lemma {:induction false} LevelOfSame(n: nat, q: int, width: nat)
    requires (width == 2 || width == 3) && (q == 0 || q == 1)
    ensures Level(Same(n, q), width) == q || Level(Same(n, q), width) == 1
    decreases n
  {
    if n >= width {
      assert Same(n, q)[width..] == Same(n - width, q);
      LevelOfSame(n - width, q, width);
    }
  }

  /** Beyond the values of a line there is no quality but L0, which no report shows. */
  lemma {:induction false} LevelOfMore(q: seq<int>, n: nat, m: nat, width: nat)
    requires (width == 2 || width == 3) && n <= m && n % width == 0 && forall i :: n <= i < |q| ==> q[i] == 0
    ensures Join(0, Level(SizedLevels(q, m), width)) == Join(0, Level(SizedLevels(q, n), width))
    decreases n
  {
    if n == 0 {
      assert SizedLevels(q, m) == Same(m, 0);
      LevelOfSame(m, 0, width);
    } else {
      WholeBlocks(n, width);
      var q' := Tail(q, width);
      assert SizedLevels(q, m)[width..] == SizedLevels(q', m - width);
      assert SizedLevels(q, n)[width..] == SizedLevels(q', n - width);
      LevelOfMore(q', n - width, m - width, width);
      ZeroJoins(SizedLevels(q, n)[0], Level(SizedLevels(q', m - width), width), Level(SizedLevels(q', n - width), width));
    }
  }

  lemma ZeroJoins(a: int, b: int, c: int)
    requires Join(0, b) == Join(0, c)
    ensures Join(0, Join(a, b)) == Join(0, Join(a, c))
  {
    JoinLaws(0, a, b);
    JoinLaws(a, 0, b);
    JoinLaws(0, a, c);
    JoinLaws(a, 0, c);
  }

  // ----- sums over the metering points of a line -----

  /** The sum of the values at offset off of every whole block of the width. */
  function Column(s: seq<real>, width: nat, off: nat): real
    requires off < width
    decreases |s|
  {
    if |s| < width then 0.0 else s[off] + Column(s[width..], width, off)
  }

  datatype Amounts = Amounts(consumed: real, shared: real, distributed: real, produced: real, unused: real, qcons: int, qprod: int)
  {
    function Plus(o: Amounts): Amounts {
      Amounts(consumed + o.consumed, shared + o.shared, distributed + o.distributed, produced + o.produced, unused + o.unused,
              Join(qcons, o.qcons), Join(qprod, o.qprod))
    }
  }

  const NOTHING := Amounts(0.0, 0.0, 0.0, 0.0, 0.0, 1, 1)  // changes no report
  const EMPTY := Amounts(0.0, 0.0, 0.0, 0.0, 0.0, 0, 0)    // a report without data

  /** What the whole blocks of the line add to a report. */
  function AmountsOf(c: Cells): Amounts {
    Amounts(Column(c.cons, 3, 0), Column(c.cons, 3, 1), Column(c.cons, 3, 2), Column(c.prod, 2, 0), Column(c.prod, 2, 1),
            Level(SizedLevels(c.qcons, |c.cons|), 3), Level(SizedLevels(c.qprod, |c.prod|), 2))
  }

  lemma PlusLaws(a: Amounts, b: Amounts, c: Amounts)
    ensures a.Plus(b).Plus(c) == a.Plus(b.Plus(c)) && a.Plus(NOTHING) == a && a.Plus(b).Plus(c) == a.Plus(c).Plus(b)
  {
    JoinLaws(a.qcons, b.qcons, c.qcons);
    JoinLaws(a.qprod, b.qprod, c.qprod);
    JoinLaws(a.qcons, c.qcons, b.qcons);
    JoinLaws(a.qprod, c.qprod, b.qprod);
    JoinLaws(b.qcons, c.qcons, a.qcons);
    JoinLaws(b.qprod, c.qprod, a.qprod);
  }

  /** The values of a line with the zeros that its last block lacks. */
  function Filled(c: Cells): Cells {
    Taken(c, Up(|c.cons|, 3), Up(|c.prod|, 2))
  }

  /** What a line adds to the hourly report; arrays may end inside of a block. */
  function RowAmounts(c: Cells): Amounts {
    AmountsOf(Filled(c))
  }

  /** No quality is stored beyond the values. */
  predicate Tidy(c: Cells) {
    && (forall i :: |c.cons| <= i < |c.qcons| ==> c.qcons[i] == 0)
    && (forall i :: |c.prod| <= i < |c.qprod| ==> c.qprod[i] == 0)
  }

  /** The line fits the lengths and is tidy. */
  predicate Fitting(c: Cells, m: nat, n: nat) {
    |c.cons| <= m && |c.prod| <= n && Tidy(c)
  }

  /** Quality arrays as long as the value arrays. */
  predicate Even(c: Cells) {
    |c.qcons| == |c.cons| && |c.qprod| == |c.prod|
  }

  lemma EvenLevels(q: seq<int>)
    ensures SizedLevels(q, |q|) == q
  {
  }

  /** The loops of addToResult over the whole blocks of a line. */
  method AddAmounts(sum: Amounts, c: Cells) returns (r: Amounts)
    requires Even(c)
    ensures r == sum.Plus(AmountsOf(c))
  {
    EvenLevels(c.qcons);
    EvenLevels(c.qprod);
    var consumed, shared, distributed, qcons := AddConsumers(sum, c.cons, c.qcons);
    var produced, unused, qprod := AddProducers(sum, c.prod, c.qprod);
    r := Amounts(consumed, shared, distributed, produced, unused, qcons, qprod);
  }

  method AddConsumers(sum: Amounts, s: seq<real>, q: seq<int>) returns (consumed: real, shared: real, distributed: real, level: int)
    requires |q| == |s|
    ensures consumed == sum.consumed + Column(s, 3, 0) && shared == sum.shared + Column(s, 3, 1)
    ensures distributed == sum.distributed + Column(s, 3, 2) && level == Join(sum.qcons, Level(q, 3))
  {
    consumed, shared, distributed, level := sum.consumed, sum.shared, sum.distributed, sum.qcons;
    var cLen := |s| - |s| % 3;
    var i := 0;
    assert s[0..] == s && q[0..] == q;
    while i < cLen
      invariant 0 <= i <= cLen && i % 3 == 0
      invariant consumed + Column(s[i..], 3, 0) == sum.consumed + Column(s, 3, 0)
      invariant shared + Column(s[i..], 3, 1) == sum.shared + Column(s, 3, 1)
      invariant distributed + Column(s[i..], 3, 2) == sum.distributed + Column(s, 3, 2)
      invariant Join(level, Level(q[i..], 3)) == Join(sum.qcons, Level(q, 3))
    {
      assert s[i..][3..] == s[i + 3..] && q[i..][3..] == q[i + 3..];
      JoinLaws(level, q[i], Level(q[i + 3..], 3));
      consumed, shared, distributed := consumed + s[i], shared + s[i + 1], distributed + s[i + 2];
      level := Join(level, q[i]);
      i := i + 3;
    }
    JoinLaws(level, 0, 0);
  }

  method AddProducers(sum: Amounts, s: seq<real>, q: seq<int>) returns (produced: real, unused: real, level: int)
    requires |q| == |s|
    ensures produced == sum.produced + Column(s, 2, 0) && unused == sum.unused + Column(s, 2, 1) && level == Join(sum.qprod, Level(q, 2))
  {
    produced, unused, level := sum.produced, sum.unused, sum.qprod;
    var pLen := |s| - |s| % 2;
    var i := 0;
    assert s[0..] == s && q[0..] == q;
    while i < pLen
      invariant 0 <= i <= pLen && i % 2 == 0
      invariant produced + Column(s[i..], 2, 0) == sum.produced + Column(s, 2, 0)
      invariant unused + Column(s[i..], 2, 1) == sum.unused + Column(s, 2, 1)
      invariant Join(level, Level(q[i..], 2)) == Join(sum.qprod, Level(q, 2))
    {
      assert s[i..][2..] == s[i + 2..] && q[i..][2..] == q[i + 2..];
      JoinLaws(level, q[i], Level(q[i + 2..], 2));
      produced, unused := produced + s[i], unused + s[i + 1];
      level := Join(level, q[i]);
      i := i + 2;
    }
    JoinLaws(level, 0, 0);
  }

  // ----- the cache -----

  /** addToCache for one array: the line may be shorter than the cache. */
  function AddInto(cache: seq<real>, s: seq<real>): seq<real> {
    seq(|cache|, i requires 0 <= i < |cache| => cache[i] + if i < |s| then s[i] else 0.0)
  }

  /** DeepCopy for one array: the size is given. */
  function Sized(s: seq<real>, n: nat): seq<real> {
    seq(n, i requires 0 <= i < n => if i < |s| then s[i] else 0.0)
  }

  /** addToCache. */
  function Joined(cache: Cells, c: Cells): Cells {
    Cells(AddInto(cache.cons, c.cons), AddInto(cache.prod, c.prod), JoinInto(cache.qcons, |c.cons|, c.qcons), JoinInto(cache.qprod, |c.prod|, c.qprod))
  }

  /** DeepCopy. */
  function Taken(c: Cells, m: nat, n: nat): Cells {
    Cells(Sized(c.cons, m), Sized(c.prod, n), SizedLevels(c.qcons, m), SizedLevels(c.qprod, n))
  }

  /** InitCache. */
  function NoCells(m: nat, n: nat): Cells {
    Cells(Zeros(m), Zeros(n), Same(m, 1), Same(n, 1))
  }

  /** Whole blocks of the given lengths. */
  predicate Fits(c: Cells, m: nat, n: nat) {
    |c.cons| == m && |c.prod| == n && Even(c) && m % 3 == 0 && n % 2 == 0
  }

  lemma CellsFit(cache: Cells, c: Cells, m: nat, n: nat)
    ensures Fits(cache, m, n) ==> Fits(Joined(cache, c), m, n)
    ensures m % 3 == 0 && n % 2 == 0 ==> Fits(Taken(c, m, n), m, n) && Fits(NoCells(m, n), m, n)
  {
  }

  lemma {:induction false} ColumnOfSum(cache: seq<real>, s: seq<real>, width: nat, off: nat)
    requires (width == 2 || width == 3) && off < width && |s| <= |cache| && |cache| % width == 0
    ensures Column(AddInto(cache, s), width, off) == Column(cache, width, off) + Column(Sized(s, Up(|s|, width)), width, off)
    decreases |cache|
  {
    var sum := AddInto(cache, s);
    if s == [] {
      assert sum == cache;
    } else {
      WholeBlocks(|cache|, width);
      var s' := Tail(s, width);
      assert sum[width..] == AddInto(cache[width..], s');
      assert Sized(s, Up(|s|, width))[width..] == Sized(s', Up(|s'|, width));
      ColumnOfSum(cache[width..], s', width, off);
    }
  }

  lemma {:induction false} ColumnOfZeros(n: nat, width: nat, off: nat)
    requires off < width
    ensures Column(Zeros(n), width, off) == 0.0
    decreases n
  {
    if n >= width {
      assert Zeros(n)[width..] == Zeros(n - width);
      ColumnOfZeros(n - width, width, off);
    }
  }

  lemma ColumnOfSized(s: seq<real>, n: nat, width: nat, off: nat)
    requires (width == 2 || width == 3) && off < width && |s| <= n && n % width == 0
    ensures Column(Sized(s, n), width, off) == Column(Sized(s, Up(|s|, width)), width, off)
  {
    assert Sized(s, n) == AddInto(Zeros(n), s);
    ColumnOfSum(Zeros(n), s, width, off);
    ColumnOfZeros(n, width, off);
  }

  lemma AmountsOfJoined(cache: Cells, c: Cells, m: nat, n: nat)
    requires Fitting(c, m, n) && Fits(cache, m, n)
    ensures AmountsOf(Joined(cache, c)) == AmountsOf(cache).Plus(RowAmounts(c))
  {
    ColumnOfSum(cache.cons, c.cons, 3, 0);
    ColumnOfSum(cache.cons, c.cons, 3, 1);
    ColumnOfSum(cache.cons, c.cons, 3, 2);
    ColumnOfSum(cache.prod, c.prod, 2, 0);
    ColumnOfSum(cache.prod, c.prod, 2, 1);
    LevelsOfJoined(cache, c, m, n);
  }

  lemma LevelsOfJoined(cache: Cells, c: Cells, m: nat, n: nat)
    requires Fitting(c, m, n) && Fits(cache, m, n)
    ensures AmountsOf(Joined(cache, c)).qcons == Join(AmountsOf(cache).qcons, RowAmounts(c).qcons)
    ensures AmountsOf(Joined(cache, c)).qprod == Join(AmountsOf(cache).qprod, RowAmounts(c).qprod)
  {
    EvenLevels(cache.qcons);
    EvenLevels(cache.qprod);
    EvenLevels(Joined(cache, c).qcons);
    EvenLevels(Joined(cache, c).qprod);
    EvenLevels(Filled(c).qcons);
    EvenLevels(Filled(c).qprod);
    LevelOfJoin(cache.qcons, |c.cons|, c.qcons, 3);
    LevelOfJoin(cache.qprod, |c.prod|, c.qprod, 2);
  }

  /** A line taken into an empty cache gives the same report, which starts at L0. */
  lemma AmountsOfTaken(c: Cells, m: nat, n: nat)
    requires Fitting(c, m, n) && m % 3 == 0 && n % 2 == 0
    ensures EMPTY.Plus(AmountsOf(Taken(c, m, n))) == EMPTY.Plus(RowAmounts(c))
  {
    ColumnOfSized(c.cons, m, 3, 0);
    ColumnOfSized(c.cons, m, 3, 1);
    ColumnOfSized(c.cons, m, 3, 2);
    ColumnOfSized(c.prod, n, 2, 0);
    ColumnOfSized(c.prod, n, 2, 1);
    EvenLevels(Taken(c, m, n).qcons);
    EvenLevels(Taken(c, m, n).qprod);
    EvenLevels(Filled(c).qcons);
    EvenLevels(Filled(c).qprod);
    UpFits(|c.cons|, m, 3);
    UpFits(|c.prod|, n, 2);
    LevelOfMore(c.qcons, Up(|c.cons|, 3), m, 3);
    LevelOfMore(c.qprod, Up(|c.prod|, 2), n, 2);
  }

  lemma AmountsOfNone(m: nat, n: nat)
    ensures AmountsOf(NoCells(m, n)) == NOTHING
  {
    ColumnOfZeros(m, 3, 0);
    ColumnOfZeros(m, 3, 1);
    ColumnOfZeros(m, 3, 2);
    ColumnOfZeros(n, 2, 0);
    ColumnOfZeros(n, 2, 1);
    EvenLevels(Same(m, 1));
    EvenLevels(Same(n, 1));
    LevelOfSame(m, 1, 3);
    LevelOfSame(n, 1, 2);
  }

  ghost predicate Advances(step: int -> int) {
    forall t :: t < step(t)
  }

  /** A bucket of lines, summed slot by slot. */
  datatype Bucket = Bucket(time: int, cells: Cells)

  class Cache {
    const step: int -> int
    const consLen: nat   // slots of all consumers
    const prodLen: nat   // slots of all producers
    var time: int
    var cells: Cells

    ghost predicate Valid()
      reads this
    {
      Fits(cells, consLen, prodLen)
    }

    /** InitCache. */
    constructor (step: int -> int, countCons: nat, countProd: nat, start: int)
      ensures Valid() && this.step == step && consLen == countCons * 3 && prodLen == countProd * 2 && time == start
      ensures cells == NoCells(consLen, prodLen)
    {
      this.step, consLen, prodLen := step, countCons * 3, countProd * 2;
      time := start;
      cells := NoCells(countCons * 3, countProd * 2);
    }

    /** CacheLine: the line is added to the bucket of its time; a bucket that is over is given out. A
        step that does not advance ends the search for the line's bucket at once. */
    method CacheLine(ts: int, c: Cells) returns (full: Option<Bucket>)
      requires Valid() && time <= ts && |c.cons| <= consLen && |c.prod| <= prodLen
      modifies this`time, this`cells
      ensures Valid() && time <= ts
      ensures Advances(step) ==> ts < step(time)
      ensures full.None? <==> ts < step(old(time))
      ensures full.None? ==> time == old(time) && cells == Joined(old(cells), c)
      ensures full.Some? ==> full.value == Bucket(old(time), old(cells)) && cells == Taken(c, consLen, prodLen) && Reached(step, old(time), time)
    {
      CellsFit(cells, c, consLen, prodLen);
      if ts < step(time) {
        cells := Joined(cells, c);
        return None;
      }
      full := Some(Bucket(time, cells));
      cells := Taken(c, consLen, prodLen);
      FindBucket(ts);
    }

    /** The bucket of the line, some steps after the current one. */
    method FindBucket(ts: int)
      requires step(time) <= ts
      modifies this`time
      ensures time <= ts && Reached(step, old(time), time)
      ensures Advances(step) ==> ts < step(time)
    {
      ghost var start := time;
      time := step(time);
      var next := step(time);
      ReachedOne(step, start);
      while ts >= next && next > time
        invariant next == step(time) && time <= ts && Reached(step, start, time)
        decreases ts - time
      {
        ReachedNext(step, start, time);
        time := next;
        next := step(next);
      }
    }
  }

  /** t comes some steps after start. */
  ghost predicate Reached(step: int -> int, start: int, t: int) {
    exists n: nat :: Steps(step, start, n) == t
  }

  function Steps(step: int -> int, start: int, n: nat): int {
    if n == 0 then start else step(Steps(step, start, n - 1))
  }

  lemma ReachedOne(step: int -> int, start: int)
    ensures Reached(step, start, step(start))
  {
    assert Steps(step, start, 0) == start;
    assert Steps(step, start, 1) == step(start);
  }

  lemma ReachedNext(step: int -> int, start: int, t: int)
    requires Reached(step, start, t)
    ensures Reached(step, start, step(t))
  {
    var n: nat :| Steps(step, start, n) == t;
    assert Steps(step, start, n + 1) == step(t);
  }

  // ----- aggregation -----

  function Slot(s: seq<real>, k: nat): real {
    if k < |s| then s[k] else 0.0
  }

  /** The sum of a consumer's or producer's slot over the lines. */
  function SlotSum(lines: seq<Line>, consumer: bool, k: nat): real {
    if lines == [] then 0.0
    else
      var c := lines[|lines| - 1].cells;
      SlotSum(lines[..|lines| - 1], consumer, k) + Slot(if consumer then c.cons else c.prod, k)
  }

  lemma SlotNext(lines: seq<Line>, l: Line, consumer: bool, k: nat)
    ensures SlotSum(lines + [l], consumer, k) == SlotSum(lines, consumer, k) + Slot(if consumer then l.cells.cons else l.cells.prod, k)
  {
    assert (lines + [l])[..|lines|] == lines;
  }

  /** Every slot summed over the buckets given out and the cache is that summed over the lines. */
  ghost predicate Conserved(out: seq<Line>, cells: Cells, lines: seq<Line>) {
    forall consumer: bool, k: nat :: SlotSum(out, consumer, k) + Slot(if consumer then cells.cons else cells.prod, k) == SlotSum(lines, consumer, k)
  }

  lemma ConservedMore(out: seq<Line>, cells: Cells, lines: seq<Line>, l: Line)
    requires Conserved(out, cells, lines) && |l.cells.cons| <= |cells.cons| && |l.cells.prod| <= |cells.prod|
    ensures Conserved(out, Joined(cells, l.cells), lines + [l])
  {
    var cells' := Joined(cells, l.cells);
    forall consumer: bool, k: nat
      ensures SlotSum(out, consumer, k) + Slot(if consumer then cells'.cons else cells'.prod, k) == SlotSum(lines + [l], consumer, k) {
      SlotNext(lines, l, consumer, k);
      assert SlotSum(out, consumer, k) + Slot(if consumer then cells.cons else cells.prod, k) == SlotSum(lines, consumer, k);
    }
  }

  lemma ConservedOver(out: seq<Line>, time: int, cells: Cells, lines: seq<Line>, l: Line, m: nat, n: nat)
    requires Conserved(out, cells, lines) && |l.cells.cons| <= m && |l.cells.prod| <= n
    ensures Conserved(out + [Line(time, cells)], Taken(l.cells, m, n), lines + [l])
  {
    var cells' := Taken(l.cells, m, n);
    forall consumer: bool, k: nat
      ensures SlotSum(out + [Line(time, cells)], consumer, k) + Slot(if consumer then cells'.cons else cells'.prod, k) == SlotSum(lines + [l], consumer, k) {
      SlotNext(lines, l, consumer, k);
      SlotNext(out, Line(time, cells), consumer, k);
      assert SlotSum(out, consumer, k) + Slot(if consumer then cells.cons else cells.prod, k) == SlotSum(lines, consumer, k);
    }
  }

  function Qualities(c: Cells, consumer: bool): seq<int> {
    if consumer then c.qcons else c.qprod
  }

  function Slots(c: Cells, consumer: bool): nat {
    if consumer then |c.cons| else |c.prod|
  }

  /** A missing quality is L0. */
  function LevelAt(q: seq<int>, k: nat): int {
    if k < |q| then q[k] else 0
  }

  /** The quality of a slot over the lines. */
  function SlotLevel(lines: seq<Line>, consumer: bool, k: nat): (r: int)
    ensures Join(r, 0) == r
  {
    if lines == [] then 0
    else Join(SlotLevel(lines[..|lines| - 1], consumer, k), LevelAt(Qualities(lines[|lines| - 1].cells, consumer), k))
  }

  lemma SlotLevelNext(lines: seq<Line>, l: Line, consumer: bool, k: nat)
    ensures SlotLevel(lines + [l], consumer, k) == Join(SlotLevel(lines, consumer, k), LevelAt(Qualities(l.cells, consumer), k))
  {
    assert (lines + [l])[..|lines|] == lines;
  }

  ghost predicate AllTidy(lines: seq<Line>) {
    forall i :: 0 <= i < |lines| ==> Tidy(lines[i].cells)
  }

  /** The same for the quality of every slot. */
  predicate LevelKept(out: seq<Line>, cells: Cells, lines: seq<Line>, consumer: bool, k: nat) {
    Join(SlotLevel(out, consumer, k), LevelAt(Qualities(cells, consumer), k)) == SlotLevel(lines, consumer, k)
  }

  ghost predicate LevelsConserved(out: seq<Line>, cells: Cells, lines: seq<Line>) {
    forall consumer: bool, k: nat :: LevelKept(out, cells, lines, consumer, k)
  }

  lemma LevelsMore(out: seq<Line>, cells: Cells, lines: seq<Line>, l: Line)
    requires LevelsConserved(out, cells, lines) && Tidy(l.cells) && Even(cells) && |l.cells.cons| <= |cells.cons| && |l.cells.prod| <= |cells.prod|
    ensures LevelsConserved(out, Joined(cells, l.cells), lines + [l])
  {
    forall consumer: bool, k: nat ensures LevelKept(out, Joined(cells, l.cells), lines + [l], consumer, k) {
      var more := LevelAt(Qualities(l.cells, consumer), k);
      SlotLevelNext(lines, l, consumer, k);
      assert LevelKept(out, cells, lines, consumer, k);
      JoinLaws(SlotLevel(out, consumer, k), LevelAt(Qualities(cells, consumer), k), more);
      assert Slots(l.cells, consumer) <= k ==> more == 0;
    }
  }

  lemma LevelsOver(out: seq<Line>, time: int, cells: Cells, lines: seq<Line>, l: Line, m: nat, n: nat)
    requires LevelsConserved(out, cells, lines) && Tidy(l.cells) && |l.cells.cons| <= m && |l.cells.prod| <= n
    ensures LevelsConserved(out + [Line(time, cells)], Taken(l.cells, m, n), lines + [l])
  {
    forall consumer: bool, k: nat ensures LevelKept(out + [Line(time, cells)], Taken(l.cells, m, n), lines + [l], consumer, k) {
      SlotLevelNext(lines, l, consumer, k);
      SlotLevelNext(out, Line(time, cells), consumer, k);
      assert LevelKept(out, cells, lines, consumer, k);
      assert Slots(l.cells, consumer) <= k ==> LevelAt(Qualities(l.cells, consumer), k) == 0;
    }
  }

  lemma TidyInit(lines: seq<Line>, l: Line)
    requires AllTidy(lines + [l])
    ensures AllTidy(lines) && Tidy(l.cells)
  {
    var all := lines + [l];
    assert all[|lines|] == l && forall i :: 0 <= i < |lines| ==> all[i] == lines[i];
  }

  class Aggregate {
    const cache: Cache
    var out: seq<Line>              // the buckets given out
    ghost var lines: seq<Line>      // the lines handled so far

    ghost predicate Valid()
      reads this, cache
    {
      cache.Valid() && Conserved(out, cache.cells, lines) && (AllTidy(lines) ==> LevelsConserved(out, cache.cells, lines))
    }

    constructor (step: int -> int, countCons: nat, countProd: nat, start: int)
      ensures Valid() && fresh(cache) && out == [] && lines == [] && cache.time == start && cache.consLen == countCons * 3 && cache.prodLen == countProd * 2
    {
      cache := new Cache(step, countCons, countProd, start);
      out, lines := [], [];
    }

    /** HandleLine: nothing is lost, and with a step that advances the bucket is that of the line. */
    method HandleLine(l: Line)
      requires Valid() && cache.time <= l.time && |l.cells.cons| <= cache.consLen && |l.cells.prod| <= cache.prodLen
      modifies this`out, this`lines, cache
      ensures Valid() && lines == old(lines) + [l] && cache.time <= l.time
      ensures Advances(cache.step) ==> l.time < cache.step(cache.time)
    {
      ghost var cells := cache.cells;
      var full := cache.CacheLine(l.time, l.cells);
      Account(full, cells, l);
      if full.Some? {
        out := out + [Line(full.value.time, full.value.cells)];
      }
      lines := lines + [l];
    }

    lemma Account(full: Option<Bucket>, cells: Cells, l: Line)
      requires Fits(cells, cache.consLen, cache.prodLen) && |l.cells.cons| <= cache.consLen && |l.cells.prod| <= cache.prodLen
      requires Conserved(out, cells, lines) && (AllTidy(lines) ==> LevelsConserved(out, cells, lines))
      requires full.Some? ==> full.value.cells == cells
      ensures var out' := if full.Some? then out + [Line(full.value.time, cells)] else out;
              var cells' := if full.Some? then Taken(l.cells, cache.consLen, cache.prodLen) else Joined(cells, l.cells);
              Conserved(out', cells', lines + [l]) && (AllTidy(lines + [l]) ==> LevelsConserved(out', cells', lines + [l]))
    {
      if full.Some? {
        ConservedOver(out, full.value.time, cells, lines, l, cache.consLen, cache.prodLen);
      } else {
        ConservedMore(out, cells, lines, l);
      }
      if AllTidy(lines + [l]) {
        TidyInit(lines, l);
        if full.Some? {
          LevelsOver(out, full.value.time, cells, lines, l, cache.consLen, cache.prodLen);
        } else {
          LevelsMore(out, cells, lines, l);
        }
      }
    }

    /** HandleFinish: nothing is lost or counted twice, and every slot keeps its quality. */
    method Finish()
      requires Valid()
      modifies this`out
      ensures forall consumer: bool, k: nat :: SlotSum(out, consumer, k) == SlotSum(lines, consumer, k)
      ensures AllTidy(lines) ==> forall consumer: bool, k: nat :: SlotLevel(out, consumer, k) == SlotLevel(lines, consumer, k)
    {
      forall consumer: bool, k: nat ensures SlotSum(out + [Line(cache.time, cache.cells)], consumer, k) == SlotSum(lines, consumer, k) {
        SlotNext(out, Line(cache.time, cache.cells), consumer, k);
        assert SlotSum(out, consumer, k) + Slot(if consumer then cache.cells.cons else cache.cells.prod, k) == SlotSum(lines, consumer, k);
      }
      if AllTidy(lines) {
        forall consumer: bool, k: nat ensures SlotLevel(out + [Line(cache.time, cache.cells)], consumer, k) == SlotLevel(lines, consumer, k) {
          SlotLevelNext(out, Line(cache.time, cache.cells), consumer, k);
          assert LevelKept(out, cache.cells, lines, consumer, k);
        }
      }
      out := out + [Line(cache.time, cache.cells)];
    }
  }
}
