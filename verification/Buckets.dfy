/** Time-of-use buckets of a report: the fold of the rows into day and window sums, and the buckets
    T1, T2 and BASE of a meter (calculation/EEGCalculationV2.go, calculation/timeWindows.go,
    model/QuotaMatrix.go). Quantities are real numbers; the rounding to six digits is modelled. */
module Buckets {
  import opened Rows

  // ----- rounding to six digits -----

  /** math.Round: halves away from zero. */
  function RoundInt(x: real): (n: int)
    ensures -0.5 <= n as real - x <= 0.5
  {
    if x >= 0.0 then (x + 0.5).Floor else -((-x + 0.5).Floor)
  }

  /** RoundToFixed with precision 6. */
  function Round6(x: real): real {
    RoundInt(x * 1000000.0) as real / 1000000.0
  }

  /** A number with at most six digits after the point. */
  ghost predicate OnGrid(x: real) {
    (x * 1000000.0).Floor as real == x * 1000000.0
  }

  function Abs(x: real): real {
    if x < 0.0 then -x else x
  }

  lemma RoundError(x: real)
    ensures Abs(Round6(x) - x) <= 0.0000005
    ensures OnGrid(Round6(x))
  {
    assert Round6(x) * 1000000.0 == RoundInt(x * 1000000.0) as real;
  }

  lemma FloorOfInt(n: int)
    ensures (n as real).Floor == n
  {
  }

  lemma RoundExact(x: real)
    requires OnGrid(x)
    ensures Round6(x) == x
  {
    assert RoundInt(x * 1000000.0) == (x * 1000000.0).Floor;
  }

  lemma GridSum(x: real, y: real)
    requires OnGrid(x) && OnGrid(y)
    ensures OnGrid(x + y) && OnGrid(x - y)
  {
    var m, n := (x * 1000000.0).Floor, (y * 1000000.0).Floor;
    assert (x + y) * 1000000.0 == m as real + n as real == (m + n) as real;
    assert (x - y) * 1000000.0 == m as real - n as real == (m - n) as real;
    FloorOfInt(m + n);
    FloorOfInt(m - n);
  }

  lemma GridZero()
    ensures OnGrid(0.0) && Round6(0.0) == 0.0
  {
    assert 0.0 * 1000000.0 == 0 as real;
    RoundExact(0.0);
  }

  // ----- matrices -----

  /** The dot product of a row of the matrix, from cell at on, with a column. */
  function Dot(cells: seq<real>, at: nat, col: seq<real>): real {
    if col == [] then 0.0
    else Dot(cells, at, col[..|col| - 1]) + At(cells, at + |col| - 1, 0.0) * col[|col| - 1]
  }

  /** ConvertLineToMatrix: the number of rows of a matrix of the given width, at least one. */
  function RowCount(len: nat, width: nat): nat
    requires width in {2, 3}
  {
    var l := if len - 1 > 1 then len - 1 else 1;
    (l + width - l % width) / width
  }

  /** Multiply of the line's matrix with a column. */
  function Multiply(cells: seq<real>, col: seq<real>): seq<real>
    requires |col| in {2, 3}
  {
    seq(RowCount(|cells|, |col|), i requires 0 <= i => Dot(cells, i * |col|, col))
  }

  /** Matrix.Add of columns: the shorter one is filled up with zeros. */
  function AddColumn(a: seq<real>, b: seq<real>): (r: seq<real>) {
    seq(if |a| < |b| then |b| else |a|, i requires 0 <= i => At(a, i, 0.0) + At(b, i, 0.0))
  }

  lemma AddColumnAt(a: seq<real>, b: seq<real>, i: nat)
    ensures At(AddColumn(a, b), i, 0.0) == At(a, i, 0.0) + At(b, i, 0.0)
  {
  }

  const UTILIZED: seq<real> := [0.0, 0.0, 1.0]     // third value of a consumer
  const PRODUCED: seq<real> := [1.0, 0.0]          // first value of a producer
  const DISTRIBUTED: seq<real> := [0.0, 1.0]       // second value of a producer

  /** The unit columns select one value of every meter, zero where the line is too short for it. */
  lemma Selects(cells: seq<real>, i: nat)
    ensures At(Multiply(cells, UTILIZED), i, 0.0) == At(cells, 3 * i + 2, 0.0)
    ensures At(Multiply(cells, PRODUCED), i, 0.0) == At(cells, 2 * i, 0.0)
    ensures At(Multiply(cells, DISTRIBUTED), i, 0.0) == At(cells, 2 * i + 1, 0.0)
  {
    Dot3(cells, i * 3, UTILIZED);
    Dot2(cells, i * 2, PRODUCED);
    Dot2(cells, i * 2, DISTRIBUTED);
  }

  lemma Dot2(cells: seq<real>, at: nat, u: seq<real>)
    requires |u| == 2
    ensures Dot(cells, at, u) == At(cells, at, 0.0) * u[0] + At(cells, at + 1, 0.0) * u[1]
  {
    assert u[..1][..0] == [];
    assert Dot(cells, at, u[..1]) == At(cells, at, 0.0) * u[0];
  }

  lemma Dot3(cells: seq<real>, at: nat, u: seq<real>)
    requires |u| == 3
    ensures Dot(cells, at, u) == At(cells, at, 0.0) * u[0] + At(cells, at + 1, 0.0) * u[1] + At(cells, at + 2, 0.0) * u[2]
  {
    Dot2(cells, at, u[..2]);
  }

  // ----- windows -----

  /** Minutes of the day; from inclusive, to exclusive, over midnight if from > to. */
  datatype Window = Window(from: int, to: int)
  {
    predicate Contains(m: int) {
      if from < to then from <= m < to else m >= from || m < to
    }
  }

  /** On the circle of the day a window of given length: m lies in it if it comes less than that after from. */
  lemma ContainsCyclic(w: Window, m: int)
    requires 0 <= w.from < 1440 && 0 <= w.to < 1440 && w.from != w.to && 0 <= m < 1440
    ensures w.Contains(m) <==> (m - w.from) % 1440 < (w.to - w.from) % 1440
  {
  }

  ghost predicate Disjoint(v: Window, w: Window) {
    forall m :: 0 <= m < 1440 ==> !(v.Contains(m) && w.Contains(m))
  }

  // ----- day and window sums -----

  datatype Kind = Utilized | Produced | Distributed

  /** A stored row with the wall-clock time of its id. */
  datatype Line = Line(time: int, yearDay: int, minute: int, row: Row)

  /** The value of meter idx in the line; what is missing is zero. */
  function ValueOf(l: Line, kind: Kind, idx: nat): real {
    match kind
    case Utilized => At(l.row.cons, 3 * idx + 2, 0.0)
    case Produced => At(l.row.prod, 2 * idx, 0.0)
    case Distributed => At(l.row.prod, 2 * idx + 1, 0.0)
  }

  function Sum(lines: seq<Line>, kind: Kind, idx: nat): real {
    if lines == [] then 0.0
    else Sum(lines[..|lines| - 1], kind, idx) + ValueOf(lines[|lines| - 1], kind, idx)
  }

  /** The lines of a window, in order. */
  function Within(lines: seq<Line>, w: Window): seq<Line> {
    if lines == [] then []
    else Within(lines[..|lines| - 1], w) + if w.Contains(lines[|lines| - 1].minute) then [lines[|lines| - 1]] else []
  }

  /** calcResults: a column of sums by meter for every kind. */
  datatype Sums = Sums(utilized: seq<real>, produced: seq<real>, distributed: seq<real>)
  {
    function Column(kind: Kind): seq<real> {
      match kind
      case Utilized => utilized
      case Produced => produced
      case Distributed => distributed
    }
  }

  function Zeros(n: nat): seq<real> {
    seq(n, _ => 0.0)
  }

  /** newCalcResult. */
  function NoSums(consumers: nat, producers: nat): Sums {
    Sums(Zeros(consumers), Zeros(producers), Zeros(producers))
  }

  /** appendResults. */
  function Append(s: Sums, l: Line): Sums {
    Sums(AddColumn(s.utilized, Multiply(l.row.cons, UTILIZED)),
         AddColumn(s.produced, Multiply(l.row.prod, PRODUCED)),
         AddColumn(s.distributed, Multiply(l.row.prod, DISTRIBUTED)))
  }

  /** The columns hold the sums over the lines, for every meter. */
  ghost predicate SumsUp(s: Sums, lines: seq<Line>) {
    forall kind: Kind, i: nat :: At(s.Column(kind), i, 0.0) == Sum(lines, kind, i)
  }

  lemma NothingSumsUp(consumers: nat, producers: nat)
    ensures SumsUp(NoSums(consumers, producers), [])
  {
  }

  lemma AppendSumsUp(s: Sums, lines: seq<Line>, l: Line)
    requires SumsUp(s, lines)
    ensures SumsUp(Append(s, l), lines + [l])
  {
    assert (lines + [l])[..|lines|] == lines;
    forall kind: Kind, i: nat ensures At(Append(s, l).Column(kind), i, 0.0) == Sum(lines + [l], kind, i) {
      Selects(l.row.cons, i);
      Selects(l.row.prod, i);
      AddColumnAt(s.utilized, Multiply(l.row.cons, UTILIZED), i);
      AddColumnAt(s.produced, Multiply(l.row.prod, PRODUCED), i);
      AddColumnAt(s.distributed, Multiply(l.row.prod, DISTRIBUTED), i);
      assert At(s.Column(kind), i, 0.0) == Sum(lines, kind, i);
    }
  }

  /** What one call of the day callback gets: the time of the day, its sums and those of its windows. */
  datatype Day = Day(time: int, sums: Sums, windows: map<Window, Sums>)

  /** A day as the loop sees it: lines in a row with the same day of the year. */
  datatype Segment = Segment(time: int, lines: seq<Line>)

  function Segments(lines: seq<Line>, yearDay: int, cur: Segment): seq<Segment>
    decreases |lines|
  {
    if lines == [] then [cur]
    else if lines[0].yearDay != yearDay then [cur] + Segments(lines[1..], lines[0].yearDay, Segment(lines[0].time, [lines[0]]))
    else Segments(lines[1..], yearDay, cur.(lines := cur.lines + [lines[0]]))
  }

  function LinesOf(segs: seq<Segment>): seq<Line> {
    if segs == [] then [] else segs[0].lines + LinesOf(segs[1..])
  }

  /** Every line belongs to one segment, in order. */
  lemma {:induction false} SegmentsPartition(lines: seq<Line>, yearDay: int, cur: Segment)
    ensures LinesOf(Segments(lines, yearDay, cur)) == cur.lines + lines
    decreases |lines|
  {
    if lines == [] {
      assert [cur][1..] == [];
    } else {
      assert lines == [lines[0]] + lines[1..];
      if lines[0].yearDay != yearDay {
        var next := Segment(lines[0].time, [lines[0]]);
        SegmentsPartition(lines[1..], lines[0].yearDay, next);
        assert ([cur] + Segments(lines[1..], lines[0].yearDay, next))[1..] == Segments(lines[1..], lines[0].yearDay, next);
      } else {
        SegmentsPartition(lines[1..], yearDay, cur.(lines := cur.lines + [lines[0]]));
        assert (cur.lines + [lines[0]]) + lines[1..] == cur.lines + lines;
      }
    }
  }

  /** The sums of the day are those of its lines; a window without an entry has no line. */
  ghost predicate DayIs(d: Day, seg: Segment, windows: set<Window>) {
    && d.time == seg.time && SumsUp(d.sums, seg.lines)
    && (forall w :: w in windows ==> WindowIs(d.windows, w, seg.lines))
  }

  ghost predicate DaysAre(days: seq<Day>, segs: seq<Segment>, windows: set<Window>) {
    |days| == |segs| && forall k :: 0 <= k < |days| ==> DayIs(days[k], segs[k], windows)
  }

  /** The entry of a window has the sums of its lines; without an entry it has no line. */
  ghost predicate WindowIs(sums: map<Window, Sums>, w: Window, lines: seq<Line>) {
    if w in sums then SumsUp(sums[w], Within(lines, w)) else Within(lines, w) == []
  }

  /** The line is folded into the window if that contains it. */
  method AddToWindow(sums: map<Window, Sums>, w: Window, l: Line, consumers: nat, producers: nat, ghost lines: seq<Line>)
    returns (sums': map<Window, Sums>)
    requires WindowIs(sums, w, lines)
    ensures WindowIs(sums', w, lines + [l])
    ensures forall v :: v != w ==> (v in sums' <==> v in sums) && (v in sums ==> sums'[v] == sums[v])
  {
    sums' := sums;
    WithinNext(lines, l, w);
    if w.Contains(l.minute) {
      var ws := if w in sums then sums[w] else NoSums(consumers, producers);
      NothingSumsUp(consumers, producers);
      AppendSumsUp(ws, Within(lines, w), l);
      sums' := sums[w := Append(ws, l)];
    }
  }

  lemma WindowKept(sums: map<Window, Sums>, sums': map<Window, Sums>, v: Window, lines: seq<Line>)
    requires WindowIs(sums, v, lines) && (v in sums' <==> v in sums) && (v in sums ==> sums'[v] == sums[v])
    ensures WindowIs(sums', v, lines)
  {
  }

  /** The line is folded into every window that contains it. */
  method AddToWindows(sums: map<Window, Sums>, windows: set<Window>, l: Line, consumers: nat, producers: nat, ghost lines: seq<Line>)
    returns (sums': map<Window, Sums>)
    requires forall w :: w in windows ==> WindowIs(sums, w, lines)
    ensures forall w :: w in windows ==> WindowIs(sums', w, lines + [l])
  {
    sums' := sums;
    var rest := windows;
    while rest != {}
      invariant rest <= windows
      invariant forall w :: w in rest ==> WindowIs(sums', w, lines)
      invariant forall w :: w in windows - rest ==> WindowIs(sums', w, lines + [l])
      decreases rest
    {
      var w := PickWindow(rest);
      ghost var was := sums';
      sums' := AddToWindow(sums', w, l, consumers, producers, lines);
      forall v | v in rest - {w} ensures WindowIs(sums', v, lines) {
        WindowKept(was, sums', v, lines);
      }
      forall v | v in windows - rest ensures WindowIs(sums', v, lines + [l]) {
        WindowKept(was, sums', v, lines + [l]);
      }
      rest := rest - {w};
    }
  }

  method PickWindow(ws: set<Window>) returns (w: Window)
    requires ws != {}
    ensures w in ws
  {
    w :| w in ws;
  }

  lemma WithinNext(lines: seq<Line>, l: Line, w: Window)
    ensures Within(lines + [l], w) == if w.Contains(l.minute) then Within(lines, w) + [l] else Within(lines, w)
  {
    assert (lines + [l])[..|lines|] == lines;
  }

  /** calcDailyScope: the days handed to the callback, in order. */
  method CalcDaily(lines: seq<Line>, windows: set<Window>, start: int, startYearDay: int, consumers: nat, producers: nat) returns (days: seq<Day>)
    ensures DaysAre(days, Segments(lines, startYearDay, Segment(start, [])), windows)
  {
    days := [];
    var day := Day(start, NoSums(consumers, producers), map[]);
    var yearDay := startYearDay;
    ghost var all := Segments(lines, startYearDay, Segment(start, []));
    ghost var done: seq<Segment>, cur := [], Segment(start, []);
    NothingSumsUp(consumers, producers);
    assert lines[0..] == lines;
    for n := 0 to |lines|
      invariant DaysAre(days, done, windows) && DayIs(day, cur, windows)
      invariant all == done + Segments(lines[n..], yearDay, cur)
    {
      var l := lines[n];
      ghost var rest := lines[n..];
      assert rest[0] == l && rest[1..] == lines[n + 1..];
      if l.yearDay != yearDay {
        ghost var next := Segment(l.time, []);
        assert done + ([cur] + Segments(rest[1..], l.yearDay, Segment(l.time, [l]))) == (done + [cur]) + Segments(rest[1..], l.yearDay, Segment(l.time, [l]));
        days, done, cur := days + [day], done + [cur], next;
        day := Day(l.time, NoSums(consumers, producers), map[]);
        yearDay := l.yearDay;
        assert [] + [l] == [l];
      }
      var ws := AddToWindows(day.windows, windows, l, consumers, producers, cur.lines);
      AppendSumsUp(day.sums, cur.lines, l);
      day := Day(day.time, Append(day.sums, l), ws);
      cur := cur.(lines := cur.lines + [l]);
    }
    days, done := days + [day], done + [cur];
    assert lines[|lines|..] == [];
  }

  // ----- the report of one meter -----

  datatype Keyed = Keyed(key: string, window: Window)
  datatype Bucket = Bucket(key: string, kwh: real)

  /** The day counts for the meter. */
  predicate Counts(from: int, until: int, time: int) {
    from <= time <= until
  }

  /** The billing quantity of a meter over some lines: the utilization of a consumer, production less
      allocation of a producer. */
  function Quantity(lines: seq<Line>, dir: Direction, idx: nat): real {
    match dir
    case Consumer => Sum(lines, Utilized, idx)
    case Producer => Sum(lines, Produced, idx) - Sum(lines, Distributed, idx)
  }

  /** What a day adds to a bucket: rounded for a consumer. */
  function DayShare(lines: seq<Line>, dir: Direction, idx: nat): real {
    if dir == Consumer then Round6(Quantity(lines, dir, idx)) else Quantity(lines, dir, idx)
  }

  /** The days that count. */
  function Counted(segs: seq<Segment>, from: int, until: int): seq<Segment> {
    if segs == [] then []
    else Counted(segs[..|segs| - 1], from, until) + if Counts(from, until, segs[|segs| - 1].time) then [segs[|segs| - 1]] else []
  }

  lemma CountedNext(segs: seq<Segment>, seg: Segment, from: int, until: int)
    ensures Counted(segs + [seg], from, until) == if Counts(from, until, seg.time) then Counted(segs, from, until) + [seg] else Counted(segs, from, until)
  {
    assert (segs + [seg])[..|segs|] == segs;
    assert Counted(segs, from, until) + [] == Counted(segs, from, until);
  }

  /** The running total of a window over the days. */
  function WindowTotal(days: seq<Segment>, w: Window, dir: Direction, idx: nat): real {
    if days == [] then 0.0
    else WindowTotal(days[..|days| - 1], w, dir, idx) + DayShare(Within(days[|days| - 1].lines, w), dir, idx)
  }

  /** The running total of one value over the days; a consumer's is rounded day by day. */
  function PeriodTotal(days: seq<Segment>, kind: Kind, idx: nat): real {
    if days == [] then 0.0
    else
      var s := Sum(days[|days| - 1].lines, kind, idx);
      PeriodTotal(days[..|days| - 1], kind, idx) + if kind == Utilized then Round6(s) else s
  }

  lemma WindowNext(days: seq<Segment>, seg: Segment, w: Window, dir: Direction, idx: nat)
    ensures WindowTotal(days + [seg], w, dir, idx) == WindowTotal(days, w, dir, idx) + DayShare(Within(seg.lines, w), dir, idx)
  {
    assert (days + [seg])[..|days|] == days;
  }

  lemma PeriodNext(days: seq<Segment>, seg: Segment, idx: nat)
    ensures PeriodTotal(days + [seg], Utilized, idx) == PeriodTotal(days, Utilized, idx) + Round6(Sum(seg.lines, Utilized, idx))
    ensures PeriodTotal(days + [seg], Produced, idx) == PeriodTotal(days, Produced, idx) + Sum(seg.lines, Produced, idx)
    ensures PeriodTotal(days + [seg], Distributed, idx) == PeriodTotal(days, Distributed, idx) + Sum(seg.lines, Distributed, idx)
  {
    assert (days + [seg])[..|days|] == days;
  }

  function SumOf(sums: map<string, real>, key: string): real {
    if key in sums then sums[key] else 0.0
  }

  predicate DistinctKeys(windows: seq<Keyed>) {
    forall i, j :: 0 <= i < j < |windows| ==> windows[i].key != windows[j].key
  }

  function WindowSet(windows: seq<Keyed>): set<Window> {
    set k | k in windows :: k.window
  }

  class MeterReport {
    const from: int        // both ends cut to the day
    const until: int
    const windows: seq<Keyed>
    const dir: Direction
    const idx: nat
    var utilization: real
    var production: real
    var allocation: real
    var sums: map<string, real>
    var buckets: seq<Bucket>

    constructor (from: int, until: int, windows: seq<Keyed>, dir: Direction, idx: nat)
      requires DistinctKeys(windows)
      ensures this.from == from && this.until == until && this.windows == windows && this.dir == dir && this.idx == idx
      ensures Tracks([]) && buckets == []
    {
      this.from, this.until, this.windows, this.dir, this.idx := from, until, windows, dir, idx;
      utilization, production, allocation, sums, buckets := 0.0, 0.0, 0.0, map[], [];
    }

    /** The totals are those of the days counted so far. */
    ghost predicate Tracks(days: seq<Segment>)
      reads this
    {
      && DistinctKeys(windows)
      && TracksEnergy(days) && TracksWindows(days)
    }

    ghost predicate TracksEnergy(days: seq<Segment>)
      reads this
    {
      && (dir == Consumer ==> utilization == PeriodTotal(days, Utilized, idx))
      && (dir == Producer ==> production == PeriodTotal(days, Produced, idx) && allocation == PeriodTotal(days, Distributed, idx))
    }

    ghost predicate TracksWindows(days: seq<Segment>)
      reads this
    {
      forall k :: k in windows ==> SumOf(sums, k.key) == WindowTotal(days, k.window, dir, idx)
    }

    /** appendBucketsToParticipantMeter for this meter. */
    method AddBuckets(d: Day, ghost seg: Segment, ghost days: seq<Segment>)
      requires DayIs(d, seg, WindowSet(windows)) && DistinctKeys(windows)
      requires TracksWindows(days)
      modifies this`sums
      ensures TracksWindows(days + [seg])
    {
      forall w ensures WindowTotal(days + [seg], w, dir, idx) == WindowTotal(days, w, dir, idx) + DayShare(Within(seg.lines, w), dir, idx) {
        WindowNext(days, seg, w, dir, idx);
      }
      for i := 0 to |windows|
        invariant forall j :: i <= j < |windows| ==> SumOf(sums, windows[j].key) == WindowTotal(days, windows[j].window, dir, idx)
        invariant forall j :: 0 <= j < i ==> SumOf(sums, windows[j].key) == WindowTotal(days + [seg], windows[j].window, dir, idx)
      {
        var k := windows[i];
        assert k in windows;
        assert k.window in WindowSet(windows);
        assert WindowIs(d.windows, k.window, seg.lines);
        if k.window in d.windows {
          var share := Share(d.windows[k.window], Within(seg.lines, k.window));
          sums := sums[k.key := SumOf(sums, k.key) + share];
        } else {
          NoShare(dir, idx);
        }
      }
    }

    /** The quantity of this meter in day or window sums. */
    method Share(s: Sums, ghost lines: seq<Line>) returns (r: real)
      requires SumsUp(s, lines)
      ensures r == DayShare(lines, dir, idx)
    {
      assert At(s.Column(Utilized), idx, 0.0) == Sum(lines, Utilized, idx);
      assert At(s.Column(Produced), idx, 0.0) == Sum(lines, Produced, idx);
      assert At(s.Column(Distributed), idx, 0.0) == Sum(lines, Distributed, idx);
      if dir == Consumer {
        r := Round6(At(s.utilized, idx, 0.0));
      } else {
        r := At(s.produced, idx, 0.0) - At(s.distributed, idx, 0.0);
      }
    }

    /** The day callback for this meter. */
    method AddDay(d: Day, ghost seg: Segment, ghost segs: seq<Segment>)
      requires DayIs(d, seg, WindowSet(windows)) && Tracks(Counted(segs, from, until))
      modifies this`sums, this`utilization, this`production, this`allocation
      ensures Tracks(Counted(segs + [seg], from, until))
    {
      ghost var days := Counted(segs, from, until);
      CountedNext(segs, seg, from, until);
      if !Counts(from, until, d.time) {
        return;
      }
      AddBuckets(d, seg, days);
      AddEnergy(d, seg, days);
    }

    /** appendEnergyToParticipantMeter for this meter. */
    method AddEnergy(d: Day, ghost seg: Segment, ghost days: seq<Segment>)
      requires SumsUp(d.sums, seg.lines)
      requires TracksEnergy(days)
      modifies this`utilization, this`production, this`allocation
      ensures TracksEnergy(days + [seg])
    {
      PeriodNext(days, seg, idx);
      assert At(d.sums.Column(Utilized), idx, 0.0) == Sum(seg.lines, Utilized, idx);
      assert At(d.sums.Column(Produced), idx, 0.0) == Sum(seg.lines, Produced, idx);
      assert At(d.sums.Column(Distributed), idx, 0.0) == Sum(seg.lines, Distributed, idx);
      match dir
      case Consumer =>
        utilization := utilization + Round6(At(d.sums.utilized, idx, 0.0));
      case Producer =>
        production := production + At(d.sums.produced, idx, 0.0);
        allocation := allocation + At(d.sums.distributed, idx, 0.0);
    }

    /** The days one after the other. */
    method AddDays(days: seq<Day>, ghost segs: seq<Segment>)
      requires DaysAre(days, segs, WindowSet(windows)) && Tracks([])
      modifies this`sums, this`utilization, this`production, this`allocation
      ensures Tracks(Counted(segs, from, until))
    {
      for n := 0 to |days|
        invariant Tracks(Counted(segs[..n], from, until))
      {
        AddDay(days[n], segs[n], segs[..n]);
        assert segs[..n + 1] == segs[..n] + [segs[n]];
      }
      assert segs[..|segs|] == segs;
    }

    /** The rounded period total of the billing quantity. */
    function Billed(): real
      reads this
    {
      if dir == Producer then production - allocation else utilization
    }

    /** Report.RoundToFixed(6) and buildBuckets: the windows by key, and BASE as what is left. */
    method Build(ghost days: seq<Segment>)
      requires Tracks(days) && ValidWindows(windows)
      modifies this`utilization, this`production, this`allocation, this`buckets
      ensures dir == Consumer ==> Billed() == Round6(PeriodTotal(days, Utilized, idx))
      ensures dir == Producer ==> Billed() == Round6(PeriodTotal(days, Produced, idx)) - Round6(PeriodTotal(days, Distributed, idx))
      ensures windows == [] ==> buckets == old(buckets)
      ensures windows != [] ==> |buckets| == 1 + |windows| && buckets[0].key == "BASE" && TotalKwh(buckets) == Billed()
      ensures windows != [] ==> HoldsWindows(buckets[1..], windows, days, dir, idx)
    {
      utilization, production, allocation := Round6(utilization), Round6(production), Round6(allocation);
      if windows == [] {
        return;
      }
      var list, windowTotal := WindowBuckets(days);
      BilledOnGrid();
      GridSum(Billed(), windowTotal);
      RoundExact(Billed() - windowTotal);
      var base := Round6(Billed() - windowTotal);
      buckets := [Bucket("BASE", base)] + list;
      TotalCons(Bucket("BASE", base), list);
      assert buckets[1..] == list;
    }

    method WindowBuckets(ghost days: seq<Segment>) returns (list: seq<Bucket>, windowTotal: real)
      requires ValidWindows(windows) && TracksWindows(days)
      ensures HoldsWindows(list, windows, days, dir, idx)
      ensures windowTotal == TotalKwh(list) && OnGrid(windowTotal)
    {
      var sorted := ByKey(windows);
      windowTotal, list := 0.0, [];
      GridZero();
      for i := 0 to |sorted|
        invariant HoldsWindows(list, sorted[..i], days, dir, idx)
        invariant windowTotal == TotalKwh(list) && OnGrid(windowTotal)
      {
        assert sorted[i] in windows;
        var kwh := Round6(SumOf(sums, sorted[i].key));
        RoundError(SumOf(sums, sorted[i].key));
        GridSum(windowTotal, kwh);
        HoldsMore(list, sorted, i, days, dir, idx);
        windowTotal := windowTotal + kwh;
        TotalSnoc(list, Bucket(sorted[i].key, kwh));
        list := list + [Bucket(sorted[i].key, kwh)];
      }
      assert sorted[..|sorted|] == sorted;
      HoldsSorted(list, sorted, windows, days, dir, idx);
    }

    lemma BilledOnGrid()
      requires exists u, p, a :: utilization == Round6(u) && production == Round6(p) && allocation == Round6(a)
      ensures OnGrid(Billed())
    {
      var u, p, a :| utilization == Round6(u) && production == Round6(p) && allocation == Round6(a);
      RoundError(u);
      RoundError(p);
      RoundError(a);
      GridSum(production, allocation);
    }
  }

  /** ValidateTimeWindows. */
  predicate ValidWindows(windows: seq<Keyed>) {
    |windows| <= 2 && DistinctKeys(windows) && forall k :: k in windows ==> k.key == "T1" || k.key == "T2"
  }

  function TotalKwh(buckets: seq<Bucket>): real {
    if buckets == [] then 0.0 else TotalKwh(buckets[..|buckets| - 1]) + buckets[|buckets| - 1].kwh
  }

  lemma TotalSnoc(list: seq<Bucket>, b: Bucket)
    ensures TotalKwh(list + [b]) == TotalKwh(list) + b.kwh
  {
    assert (list + [b])[..|list|] == list;
  }

  lemma {:induction false} TotalCons(b: Bucket, list: seq<Bucket>)
    ensures TotalKwh([b] + list) == b.kwh + TotalKwh(list)
    decreases |list|
  {
    if list != [] {
      assert ([b] + list)[..|list|] == [b] + list[..|list| - 1];
      TotalCons(b, list[..|list| - 1]);
    } else {
      assert [b] + list == [b];
      assert [b][..0] == [];
    }
  }

  /** The buckets are those of the windows, by key, each with its rounded total. */
  ghost predicate HoldsWindows(list: seq<Bucket>, windows: seq<Keyed>, days: seq<Segment>, dir: Direction, idx: nat) {
    && |list| == |windows|
    && (forall i, j :: 0 <= i < j < |list| ==> list[i].key != list[j].key && (list[j].key == "T2"))
    && forall k :: k in windows ==> exists i :: 0 <= i < |list| && list[i] == Bucket(k.key, Round6(WindowTotal(days, k.window, dir, idx)))
  }

  lemma HoldsMore(list: seq<Bucket>, sorted: seq<Keyed>, i: nat, days: seq<Segment>, dir: Direction, idx: nat)
    requires i < |sorted| <= 2 && DistinctKeys(sorted) && (|sorted| == 2 ==> sorted[0].key == "T1" && sorted[1].key == "T2")
    requires HoldsWindows(list, sorted[..i], days, dir, idx)
    ensures HoldsWindows(list + [Bucket(sorted[i].key, Round6(WindowTotal(days, sorted[i].window, dir, idx)))], sorted[..i + 1], days, dir, idx)
  {
    var more := list + [Bucket(sorted[i].key, Round6(WindowTotal(days, sorted[i].window, dir, idx)))];
    assert more[i] == Bucket(sorted[i].key, Round6(WindowTotal(days, sorted[i].window, dir, idx)));
    if i == 1 {
      assert sorted[..1][0] == sorted[0];
      assert sorted[0] in sorted[..1];
    }
    forall k | k in sorted[..i + 1] ensures exists j :: 0 <= j < |more| && more[j] == Bucket(k.key, Round6(WindowTotal(days, k.window, dir, idx))) {
      if k in sorted[..i] {
        var j :| 0 <= j < |list| && list[j] == Bucket(k.key, Round6(WindowTotal(days, k.window, dir, idx)));
        assert more[j] == list[j];
      }
    }
  }

  /** The windows sorted by key. */
  function ByKey(windows: seq<Keyed>): (r: seq<Keyed>)
    requires ValidWindows(windows)
    ensures |r| == |windows| && (forall k :: k in r <==> k in windows) && DistinctKeys(r)
    ensures |r| == 2 ==> r[0].key == "T1" && r[1].key == "T2"
  {
    if |windows| == 2 && windows[0].key == "T2" then [windows[1], windows[0]] else windows
  }

  lemma HoldsSorted(list: seq<Bucket>, sorted: seq<Keyed>, windows: seq<Keyed>, days: seq<Segment>, dir: Direction, idx: nat)
    requires HoldsWindows(list, sorted, days, dir, idx) && |sorted| == |windows| && forall k :: k in sorted <==> k in windows
    ensures HoldsWindows(list, windows, days, dir, idx)
  {
  }

  lemma NoShare(dir: Direction, idx: nat)
    ensures DayShare([], dir, idx) == 0.0
  {
    GridZero();
  }
}
