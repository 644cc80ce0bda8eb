/** How far the buckets are from the energy really used in their windows. */
module BucketBounds {
  import opened Rows
  import opened Buckets

  /** a and b differ by at most so many halves of a millionth. */
  predicate Close(a: real, b: real, halves: real) {
    Abs(a - b) <= halves * 0.0000005
  }

  lemma CloseSum(a: real, b: real, m: real, c: real, d: real, n: real)
    requires Close(a, b, m) && Close(c, d, n)
    ensures Close(a + c, b + d, m + n) && Close(a - c, b - d, m + n)
  {
  }

  lemma RoundClose(x: real)
    ensures Close(Round6(x), x, 1.0)
  {
    RoundError(x);
  }

  lemma {:induction false} SumConcat(a: seq<Line>, b: seq<Line>, kind: Kind, idx: nat)
    ensures Sum(a + b, kind, idx) == Sum(a, kind, idx) + Sum(b, kind, idx)
    decreases |b|
  {
    if b == [] {
      assert a + b == a;
    } else {
      assert (a + b)[..|a| + |b| - 1] == a + b[..|b| - 1];
      SumConcat(a, b[..|b| - 1], kind, idx);
    }
  }

  lemma {:induction false} WithinConcat(a: seq<Line>, b: seq<Line>, w: Window)
    ensures Within(a + b, w) == Within(a, w) + Within(b, w)
    decreases |b|
  {
    if b == [] {
      assert a + b == a;
    } else {
      assert (a + b)[..|a| + |b| - 1] == a + b[..|b| - 1];
      WithinConcat(a, b[..|b| - 1], w);
    }
  }

  lemma {:induction false} LinesSnoc(days: seq<Segment>, d: Segment)
    ensures LinesOf(days + [d]) == LinesOf(days) + d.lines
    decreases |days|
  {
    if days == [] {
      assert days + [d] == [d];
      assert [d][1..] == [];
    } else {
      assert (days + [d])[1..] == days[1..] + [d];
      LinesSnoc(days[1..], d);
    }
  }

  lemma LinesLast(days: seq<Segment>)
    requires days != []
    ensures LinesOf(days) == LinesOf(days[..|days| - 1]) + days[|days| - 1].lines
  {
    assert days == days[..|days| - 1] + [days[|days| - 1]];
    LinesSnoc(days[..|days| - 1], days[|days| - 1]);
  }

  lemma SumWithinLast(days: seq<Segment>, w: Window, kind: Kind, idx: nat)
    requires days != []
    ensures Sum(Within(LinesOf(days), w), kind, idx) == Sum(Within(LinesOf(days[..|days| - 1]), w), kind, idx) + Sum(Within(days[|days| - 1].lines, w), kind, idx)
  {
    LinesLast(days);
    WithinConcat(LinesOf(days[..|days| - 1]), days[|days| - 1].lines, w);
    SumConcat(Within(LinesOf(days[..|days| - 1]), w), Within(days[|days| - 1].lines, w), kind, idx);
  }

  lemma SumLast(days: seq<Segment>, kind: Kind, idx: nat)
    requires days != []
    ensures Sum(LinesOf(days), kind, idx) == Sum(LinesOf(days[..|days| - 1]), kind, idx) + Sum(days[|days| - 1].lines, kind, idx)
  {
    LinesLast(days);
    SumConcat(LinesOf(days[..|days| - 1]), days[|days| - 1].lines, kind, idx);
  }

  /** A consumer's window total is off by at most half a millionth per counted day. */
  lemma {:induction false} WindowError(days: seq<Segment>, w: Window, idx: nat)
    ensures Close(WindowTotal(days, w, Consumer, idx), Sum(Within(LinesOf(days), w), Utilized, idx), |days| as real)
  {
    if days != [] {
      var init, here := days[..|days| - 1], Sum(Within(days[|days| - 1].lines, w), Utilized, idx);
      WindowError(init, w, idx);
      SumWithinLast(days, w, Utilized, idx);
      RoundClose(here);
      CloseSum(WindowTotal(init, w, Consumer, idx), Sum(Within(LinesOf(init), w), Utilized, idx), |init| as real, Round6(here), here, 1.0);
    }
  }

  lemma {:induction false} WindowOnGrid(days: seq<Segment>, w: Window, idx: nat)
    ensures OnGrid(WindowTotal(days, w, Consumer, idx))
  {
    GridZero();
    if days != [] {
      var here := Sum(Within(days[|days| - 1].lines, w), Utilized, idx);
      WindowOnGrid(days[..|days| - 1], w, idx);
      RoundError(here);
      GridSum(WindowTotal(days[..|days| - 1], w, Consumer, idx), Round6(here));
    }
  }

  /** A producer's window total is not rounded before the end. */
  lemma {:induction false} ProducerWindow(days: seq<Segment>, w: Window, idx: nat)
    ensures WindowTotal(days, w, Producer, idx) == Quantity(Within(LinesOf(days), w), Producer, idx)
  {
    if days != [] {
      ProducerWindow(days[..|days| - 1], w, idx);
      SumWithinLast(days, w, Produced, idx);
      SumWithinLast(days, w, Distributed, idx);
    }
  }

  lemma {:induction false} PeriodError(days: seq<Segment>, idx: nat)
    ensures Close(PeriodTotal(days, Utilized, idx), Sum(LinesOf(days), Utilized, idx), |days| as real)
  {
    if days != [] {
      var init, here := days[..|days| - 1], Sum(days[|days| - 1].lines, Utilized, idx);
      PeriodError(init, idx);
      SumLast(days, Utilized, idx);
      RoundClose(here);
      CloseSum(PeriodTotal(init, Utilized, idx), Sum(LinesOf(init), Utilized, idx), |init| as real, Round6(here), here, 1.0);
    }
  }

  lemma {:induction false} PeriodOnGrid(days: seq<Segment>, idx: nat)
    ensures OnGrid(PeriodTotal(days, Utilized, idx))
  {
    GridZero();
    if days != [] {
      var here := Sum(days[|days| - 1].lines, Utilized, idx);
      PeriodOnGrid(days[..|days| - 1], idx);
      RoundError(here);
      GridSum(PeriodTotal(days[..|days| - 1], Utilized, idx), Round6(here));
    }
  }

  lemma {:induction false} ProducerPeriod(days: seq<Segment>, kind: Kind, idx: nat)
    requires kind != Utilized
    ensures PeriodTotal(days, kind, idx) == Sum(LinesOf(days), kind, idx)
  {
    if days != [] {
      ProducerPeriod(days[..|days| - 1], kind, idx);
      SumLast(days, kind, idx);
    }
  }

  // ----- inside and outside of the windows -----

  predicate InAny(windows: seq<Keyed>, m: int) {
    exists k :: k in windows && k.window.Contains(m)
  }

  function Outside(lines: seq<Line>, windows: seq<Keyed>): seq<Line> {
    if lines == [] then []
    else Outside(lines[..|lines| - 1], windows) + if InAny(windows, lines[|lines| - 1].minute) then [] else [lines[|lines| - 1]]
  }

  /** The true sums of all windows. */
  function InsideTotal(lines: seq<Line>, windows: seq<Keyed>, kind: Kind, idx: nat): real
    decreases |windows|
  {
    if windows == [] then 0.0
    else InsideTotal(lines, windows[..|windows| - 1], kind, idx) + Sum(Within(lines, windows[|windows| - 1].window), kind, idx)
  }

  ghost predicate NoOverlap(windows: seq<Keyed>) {
    forall i, j :: 0 <= i < j < |windows| ==> Disjoint(windows[i].window, windows[j].window)
  }

  ghost predicate OnClock(lines: seq<Line>) {
    forall l :: l in lines ==> 0 <= l.minute < 1440
  }

  lemma SumWithinNext(lines: seq<Line>, l: Line, w: Window, kind: Kind, idx: nat)
    ensures Sum(Within(lines + [l], w), kind, idx) == Sum(Within(lines, w), kind, idx) + if w.Contains(l.minute) then ValueOf(l, kind, idx) else 0.0
  {
    WithinNext(lines, l, w);
    SumNext(Within(lines, w), l, kind, idx);
  }

  lemma SumNext(lines: seq<Line>, l: Line, kind: Kind, idx: nat)
    ensures Sum(lines + [l], kind, idx) == Sum(lines, kind, idx) + ValueOf(l, kind, idx)
  {
    assert (lines + [l])[..|lines|] == lines;
  }

  /** A minute lies in one window at most. */
  lemma InOneOnly(windows: seq<Keyed>, m: int)
    requires NoOverlap(windows) && 0 <= m < 1440 && windows != [] && windows[|windows| - 1].window.Contains(m)
    ensures !InAny(windows[..|windows| - 1], m)
  {
    var init := windows[..|windows| - 1];
    forall k | k in init ensures !k.window.Contains(m) {
      var i :| 0 <= i < |init| && init[i] == k;
      assert Disjoint(windows[i].window, windows[|windows| - 1].window);
    }
  }

  lemma {:induction false} InsideNext(lines: seq<Line>, l: Line, windows: seq<Keyed>, kind: Kind, idx: nat)
    requires NoOverlap(windows) && 0 <= l.minute < 1440
    ensures InsideTotal(lines + [l], windows, kind, idx) == InsideTotal(lines, windows, kind, idx) + if InAny(windows, l.minute) then ValueOf(l, kind, idx) else 0.0
    decreases |windows|
  {
    if windows != [] {
      var init, last := windows[..|windows| - 1], windows[|windows| - 1];
      assert windows == init + [last];
      InsideNext(lines, l, init, kind, idx);
      SumWithinNext(lines, l, last.window, kind, idx);
      InAnyNext(init, last, l.minute);
      if last.window.Contains(l.minute) {
        InOneOnly(windows, l.minute);
      }
    }
  }

  lemma InAnyNext(init: seq<Keyed>, last: Keyed, m: int)
    ensures InAny(init + [last], m) <==> InAny(init, m) || last.window.Contains(m)
  {
    if last.window.Contains(m) {
      assert last in init + [last];
    }
    if InAny(init, m) {
      var k :| k in init && k.window.Contains(m);
      assert k in init + [last];
    }
  }

  /** Windows that do not overlap and what is outside of them make up the whole. */
  lemma {:induction false} Partition(lines: seq<Line>, windows: seq<Keyed>, kind: Kind, idx: nat)
    requires NoOverlap(windows) && OnClock(lines)
    ensures Sum(lines, kind, idx) == InsideTotal(lines, windows, kind, idx) + Sum(Outside(lines, windows), kind, idx)
    decreases |lines|
  {
    if lines == [] {
      NothingInside(windows, kind, idx);
    } else {
      var init, last := lines[..|lines| - 1], lines[|lines| - 1];
      assert last in lines;
      Partition(init, windows, kind, idx);
      InsideNext(init, last, windows, kind, idx);
      assert lines == init + [last];
      SumNext(Outside(init, windows), last, kind, idx);
      assert Outside(init, windows) + [] == Outside(init, windows);
    }
  }

  lemma {:induction false} NothingInside(windows: seq<Keyed>, kind: Kind, idx: nat)
    ensures InsideTotal([], windows, kind, idx) == 0.0
    decreases |windows|
  {
    if windows != [] {
      NothingInside(windows[..|windows| - 1], kind, idx);
    }
  }

  // ----- the buckets -----

  /** The rounded totals of all windows. */
  function RoundedTotal(days: seq<Segment>, windows: seq<Keyed>, dir: Direction, idx: nat): real
    decreases |windows|
  {
    if windows == [] then 0.0
    else RoundedTotal(days, windows[..|windows| - 1], dir, idx) + Round6(WindowTotal(days, windows[|windows| - 1].window, dir, idx))
  }

  lemma ListTotal(list: seq<Bucket>, windows: seq<Keyed>, days: seq<Segment>, dir: Direction, idx: nat)
    requires ValidWindows(windows) && HoldsWindows(list, windows, days, dir, idx)
    ensures TotalKwh(list) == RoundedTotal(days, windows, dir, idx)
  {
    if |windows| == 1 {
      assert windows[0] in windows;
      assert list[..0] == [] && windows[..0] == [];
    } else if |windows| == 2 {
      assert windows[0] in windows && windows[1] in windows;
      var i :| 0 <= i < 2 && list[i] == Bucket(windows[0].key, Round6(WindowTotal(days, windows[0].window, dir, idx)));
      var j :| 0 <= j < 2 && list[j] == Bucket(windows[1].key, Round6(WindowTotal(days, windows[1].window, dir, idx)));
      assert windows[0].key != windows[1].key;
      assert list[..1][..0] == [] && windows[..1][..0] == [];
      assert list[..1][0] == list[0] && windows[..1][0] == windows[0];
      assert TotalKwh(list[..1]) == list[0].kwh;
      assert RoundedTotal(days, windows[..1], dir, idx) == Round6(WindowTotal(days, windows[0].window, dir, idx));
    }
  }

  lemma {:induction false} RoundedError(days: seq<Segment>, windows: seq<Keyed>, idx: nat)
    ensures Close(RoundedTotal(days, windows, Consumer, idx), InsideTotal(LinesOf(days), windows, Utilized, idx), (|windows| * |days|) as real)
    decreases |windows|
  {
    if windows != [] {
      var init, last := windows[..|windows| - 1], windows[|windows| - 1];
      RoundedError(days, init, idx);
      WindowError(days, last.window, idx);
      WindowOnGrid(days, last.window, idx);
      RoundExact(WindowTotal(days, last.window, Consumer, idx));
      CloseSum(RoundedTotal(days, init, Consumer, idx), InsideTotal(LinesOf(days), init, Utilized, idx), (|init| * |days|) as real,
               WindowTotal(days, last.window, Consumer, idx), Sum(Within(LinesOf(days), last.window), Utilized, idx), |days| as real);
      OneMore(|init|, |days|);
    }
  }

  lemma OneMore(m: nat, n: nat)
    ensures (m * n) as real + n as real == ((m + 1) * n) as real
  {
    assert m * n + n == (m + 1) * n;
  }

  /** Every window bucket of a consumer is within half a millionth per counted day of the energy used
      in the window. */
  lemma ConsumerWindow(buckets: seq<Bucket>, windows: seq<Keyed>, days: seq<Segment>, idx: nat, k: Keyed)
    requires k in windows && |buckets| == 1 + |windows| && HoldsWindows(buckets[1..], windows, days, Consumer, idx)
    ensures exists b :: b in buckets[1..] && b.key == k.key && Close(b.kwh, Sum(Within(LinesOf(days), k.window), Utilized, idx), |days| as real)
  {
    var list := buckets[1..];
    var i :| 0 <= i < |list| && list[i] == Bucket(k.key, Round6(WindowTotal(days, k.window, Consumer, idx)));
    WindowError(days, k.window, idx);
    WindowOnGrid(days, k.window, idx);
    RoundExact(WindowTotal(days, k.window, Consumer, idx));
    assert list[i] in buckets[1..];
  }

  lemma BaseIsRest(buckets: seq<Bucket>, windows: seq<Keyed>, days: seq<Segment>, idx: nat)
    requires ValidWindows(windows) && |buckets| == 1 + |windows|
    requires TotalKwh(buckets) == Round6(PeriodTotal(days, Utilized, idx)) && HoldsWindows(buckets[1..], windows, days, Consumer, idx)
    ensures buckets[0].kwh == PeriodTotal(days, Utilized, idx) - RoundedTotal(days, windows, Consumer, idx)
  {
    var list := buckets[1..];
    assert buckets == [buckets[0]] + list;
    TotalCons(buckets[0], list);
    ListTotal(list, windows, days, Consumer, idx);
    PeriodOnGrid(days, idx);
    RoundExact(PeriodTotal(days, Utilized, idx));
  }

  /** BASE of a consumer is within one half of a millionth per counted day, and another one for every
      window, of the energy used outside of all windows, if these do not overlap. */
  lemma ConsumerBase(buckets: seq<Bucket>, windows: seq<Keyed>, days: seq<Segment>, idx: nat)
    requires ValidWindows(windows) && NoOverlap(windows) && OnClock(LinesOf(days)) && |buckets| == 1 + |windows|
    requires TotalKwh(buckets) == Round6(PeriodTotal(days, Utilized, idx)) && HoldsWindows(buckets[1..], windows, days, Consumer, idx)
    ensures Close(buckets[0].kwh, Sum(Outside(LinesOf(days), windows), Utilized, idx), (|days| + |windows| * |days|) as real)
  {
    BaseIsRest(buckets, windows, days, idx);
    PeriodError(days, idx);
    RoundedError(days, windows, idx);
    Partition(LinesOf(days), windows, Utilized, idx);
    RestClose(buckets[0].kwh, PeriodTotal(days, Utilized, idx), Sum(LinesOf(days), Utilized, idx), |days|,
              RoundedTotal(days, windows, Consumer, idx), InsideTotal(LinesOf(days), windows, Utilized, idx), |windows| * |days|,
              Sum(Outside(LinesOf(days), windows), Utilized, idx));
  }

  lemma RestClose(base: real, total: real, sum: real, n: int, rounded: real, inside: real, m: int, outside: real)
    requires Close(total, sum, n as real) && Close(rounded, inside, m as real) && sum == inside + outside && base == total - rounded
    ensures Close(base, outside, (n + m) as real)
  {
    CloseSum(total, sum, n as real, rounded, inside, m as real);
  }

  /** The windows of a producer are rounded once. */
  lemma ProducerBuckets(buckets: seq<Bucket>, windows: seq<Keyed>, days: seq<Segment>, idx: nat, k: Keyed)
    requires k in windows && |buckets| == 1 + |windows| && HoldsWindows(buckets[1..], windows, days, Producer, idx)
    ensures exists b :: b in buckets[1..] && b.key == k.key && Close(b.kwh, Quantity(Within(LinesOf(days), k.window), Producer, idx), 1.0)
  {
    var list := buckets[1..];
    var i :| 0 <= i < |list| && list[i] == Bucket(k.key, Round6(WindowTotal(days, k.window, Producer, idx)));
    ProducerWindow(days, k.window, idx);
    RoundClose(WindowTotal(days, k.window, Producer, idx));
    assert list[i] in buckets[1..];
  }

  lemma {:induction false} RoundedProducer(days: seq<Segment>, windows: seq<Keyed>, idx: nat)
    ensures Close(RoundedTotal(days, windows, Producer, idx),
                  InsideTotal(LinesOf(days), windows, Produced, idx) - InsideTotal(LinesOf(days), windows, Distributed, idx), |windows| as real)
    decreases |windows|
  {
    if windows != [] {
      var init, last := windows[..|windows| - 1], windows[|windows| - 1];
      var total := WindowTotal(days, last.window, Producer, idx);
      RoundedProducer(days, init, idx);
      ProducerWindow(days, last.window, idx);
      RoundClose(total);
      CloseSum(RoundedTotal(days, init, Producer, idx),
               InsideTotal(LinesOf(days), init, Produced, idx) - InsideTotal(LinesOf(days), init, Distributed, idx), |init| as real, Round6(total), total, 1.0);
    }
  }

  /** BASE of a producer is within two halves of a millionth, and another one for every window, of what
      it delivered outside of all windows, if these do not overlap. */
  lemma ProducerBase(buckets: seq<Bucket>, windows: seq<Keyed>, days: seq<Segment>, idx: nat)
    requires ValidWindows(windows) && NoOverlap(windows) && OnClock(LinesOf(days)) && |buckets| == 1 + |windows|
    requires TotalKwh(buckets) == Round6(PeriodTotal(days, Produced, idx)) - Round6(PeriodTotal(days, Distributed, idx))
    requires HoldsWindows(buckets[1..], windows, days, Producer, idx)
    ensures Close(buckets[0].kwh, Quantity(Outside(LinesOf(days), windows), Producer, idx), (2 + |windows|) as real)
  {
    var list, lines := buckets[1..], LinesOf(days);
    assert buckets == [buckets[0]] + list;
    TotalCons(buckets[0], list);
    ListTotal(list, windows, days, Producer, idx);
    RoundedProducer(days, windows, idx);
    ProducerPeriod(days, Produced, idx);
    ProducerPeriod(days, Distributed, idx);
    var p, d := Sum(lines, Produced, idx), Sum(lines, Distributed, idx);
    RoundClose(p);
    RoundClose(d);
    CloseSum(Round6(p), p, 1.0, Round6(d), d, 1.0);
    Partition(lines, windows, Produced, idx);
    Partition(lines, windows, Distributed, idx);
    RestClose(buckets[0].kwh, Round6(p) - Round6(d), p - d, 2, RoundedTotal(days, windows, Producer, idx),
              InsideTotal(lines, windows, Produced, idx) - InsideTotal(lines, windows, Distributed, idx), |windows|,
              Quantity(Outside(lines, windows), Producer, idx));
  }

  // ----- the whole report of a meter -----

  /** What the buckets of a consumer promise about the energy it used on the counted days. */
  ghost predicate ConsumerPromise(buckets: seq<Bucket>, windows: seq<Keyed>, days: seq<Segment>, idx: nat) {
    && |buckets| == 1 + |windows|
    && (forall k :: k in windows ==> WindowPromise(buckets, k, days, idx))
    && (NoOverlap(windows) && OnClock(LinesOf(days)) ==> Close(buckets[0].kwh, Sum(Outside(LinesOf(days), windows), Utilized, idx), (|days| + |windows| * |days|) as real))
  }

  ghost predicate WindowPromise(buckets: seq<Bucket>, k: Keyed, days: seq<Segment>, idx: nat)
    requires buckets != []
  {
    exists b :: b in buckets[1..] && b.key == k.key && Close(b.kwh, Sum(Within(LinesOf(days), k.window), Utilized, idx), |days| as real)
  }

  lemma ConsumerKept(buckets: seq<Bucket>, windows: seq<Keyed>, days: seq<Segment>, idx: nat)
    requires ValidWindows(windows) && |buckets| == 1 + |windows|
    requires TotalKwh(buckets) == Round6(PeriodTotal(days, Utilized, idx)) && HoldsWindows(buckets[1..], windows, days, Consumer, idx)
    ensures ConsumerPromise(buckets, windows, days, idx)
  {
    forall k | k in windows ensures WindowPromise(buckets, k, days, idx) {
      ConsumerWindow(buckets, windows, days, idx, k);
    }
    if NoOverlap(windows) && OnClock(LinesOf(days)) {
      ConsumerBase(buckets, windows, days, idx);
    }
  }

  /** The same for a producer and what it delivered. */
  ghost predicate ProducerPromise(buckets: seq<Bucket>, windows: seq<Keyed>, days: seq<Segment>, idx: nat) {
    && |buckets| == 1 + |windows|
    && (forall k :: k in windows ==> DeliveryPromise(buckets, k, days, idx))
    && (NoOverlap(windows) && OnClock(LinesOf(days)) ==> Close(buckets[0].kwh, Quantity(Outside(LinesOf(days), windows), Producer, idx), (2 + |windows|) as real))
  }

  ghost predicate DeliveryPromise(buckets: seq<Bucket>, k: Keyed, days: seq<Segment>, idx: nat)
    requires buckets != []
  {
    exists b :: b in buckets[1..] && b.key == k.key && Close(b.kwh, Quantity(Within(LinesOf(days), k.window), Producer, idx), 1.0)
  }

  lemma ProducerKept(buckets: seq<Bucket>, windows: seq<Keyed>, days: seq<Segment>, idx: nat)
    requires ValidWindows(windows) && |buckets| == 1 + |windows|
    requires TotalKwh(buckets) == Round6(PeriodTotal(days, Produced, idx)) - Round6(PeriodTotal(days, Distributed, idx))
    requires HoldsWindows(buckets[1..], windows, days, Producer, idx)
    ensures ProducerPromise(buckets, windows, days, idx)
  {
    forall k | k in windows ensures DeliveryPromise(buckets, k, days, idx) {
      ProducerBuckets(buckets, windows, days, idx, k);
    }
    if NoOverlap(windows) && OnClock(LinesOf(days)) {
      ProducerBase(buckets, windows, days, idx);
    }
  }

  /** calcParticipantReport for one meter: BASE, T1 and T2 add up to the billed total exactly, and
      each is as close to the energy of the counted days as the rounding allows. */
  method ReportMeter(lines: seq<Line>, start: int, startYearDay: int, consumers: nat, producers: nat, from: int, until: int, windows: seq<Keyed>, dir: Direction, idx: nat)
    returns (report: MeterReport, ghost days: seq<Segment>)
    requires ValidWindows(windows)
    ensures fresh(report) && report.dir == dir
    ensures days == Counted(Segments(lines, startYearDay, Segment(start, [])), from, until)
    ensures windows != [] ==> |report.buckets| == 1 + |windows| && TotalKwh(report.buckets) == report.Billed()
    ensures windows != [] && dir == Consumer ==> ConsumerPromise(report.buckets, windows, days, idx)
    ensures windows != [] && dir == Producer ==> ProducerPromise(report.buckets, windows, days, idx)
  {
    report := new MeterReport(from, until, windows, dir, idx);
    var found := CalcDaily(lines, WindowSet(windows), start, startYearDay, consumers, producers);
    ghost var segs := Segments(lines, startYearDay, Segment(start, []));
    report.AddDays(found, segs);
    days := Counted(segs, from, until);
    report.Build(days);
    if windows != [] && dir == Consumer {
      ConsumerKept(report.buckets, windows, days, idx);
    } else if windows != [] {
      ProducerKept(report.buckets, windows, days, idx);
    }
  }
}
