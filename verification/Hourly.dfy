/** The hourly report (store/intraday_function.go). */
module Hourly {
  import opened Calendar
  import opened Engine
  import opened Seqs

  // ----- hours and totals of amounts -----

  /** What a line adds to a report, and the hour of the day it belongs to. */
  datatype Entry = Entry(hour: int, amounts: Amounts)

  /** The report of an hour of the day. */
  function HourSum(es: seq<Entry>, h: int): Amounts {
    if es == [] then EMPTY
    else
      var e := es[|es| - 1];
      var before := HourSum(es[..|es| - 1], h);
      if e.hour == h then before.Plus(e.amounts) else before
  }

  /** The report of everything. */
  function Sum(es: seq<Entry>): Amounts {
    if es == [] then EMPTY else Sum(es[..|es| - 1]).Plus(es[|es| - 1].amounts)
  }

  /** The first hours of the day, one after the other. */
  function HoursSum(es: seq<Entry>, hours: nat): Amounts {
    if hours == 0 then EMPTY else HoursSum(es, hours - 1).Plus(HourSum(es, hours - 1))
  }

  lemma HourSumNext(es: seq<Entry>, e: Entry, h: int)
    ensures HourSum(es + [e], h) == if e.hour == h then HourSum(es, h).Plus(e.amounts) else HourSum(es, h)
  {
    assert (es + [e])[..|es|] == es;
  }

  lemma SumNext(es: seq<Entry>, e: Entry)
    ensures Sum(es + [e]) == Sum(es).Plus(e.amounts)
  {
    assert (es + [e])[..|es|] == es;
  }

  lemma {:induction false} HoursSumNone(hours: nat)
    ensures HoursSum([], hours) == EMPTY
  {
    if hours > 0 {
      HoursSumNone(hours - 1);
    }
  }

  lemma {:induction false} HoursSumNext(es: seq<Entry>, e: Entry, hours: nat)
    ensures HoursSum(es + [e], hours) == if 0 <= e.hour < hours then HoursSum(es, hours).Plus(e.amounts) else HoursSum(es, hours)
  {
    if hours > 0 {
      HoursSumNext(es, e, hours - 1);
      HourSumNext(es, e, hours - 1);
      Combine(HoursSum(es, hours - 1), HourSum(es, hours - 1), e.amounts);
    }
  }

  lemma Combine(day: Amounts, hour: Amounts, more: Amounts)
    ensures day.Plus(more).Plus(hour) == day.Plus(hour).Plus(more)
    ensures day.Plus(hour.Plus(more)) == day.Plus(hour).Plus(more)
  {
    PlusLaws(day, hour, more);
    PlusLaws(day, more, hour);
  }

  /** The hours of the day make up the whole, values and qualities. */
  lemma {:induction false} HoursMakeSum(es: seq<Entry>, hours: nat)
    requires forall e :: e in es ==> 0 <= e.hour < hours
    ensures HoursSum(es, hours) == Sum(es)
  {
    if es == [] {
      HoursSumNone(hours);
    } else {
      var init, e := es[..|es| - 1], es[|es| - 1];
      assert e in es;
      HoursMakeSum(init, hours);
      HoursSumNext(init, e, hours);
      SumNext(init, e);
      InitLast(es);
    }
  }

  // ----- lines -----

  /** Local hours: quarter hours of one hour share it. */
  ghost predicate Clockwork(hourOf: int -> int) {
    forall t :: 0 <= hourOf(t) < 24 && hourOf(t) == hourOf(t - t % 4)
  }

  function AddHour(t: int): int {
    t + 4
  }

  function EntryOf(l: Line, hourOf: int -> int): Entry {
    Entry(hourOf(l.time), RowAmounts(l.cells))
  }

  function Entries(lines: seq<Line>, hourOf: int -> int): seq<Entry> {
    seq(|lines|, i requires 0 <= i < |lines| => EntryOf(lines[i], hourOf))
  }

  lemma EntriesNext(lines: seq<Line>, l: Line, hourOf: int -> int)
    ensures Entries(lines + [l], hourOf) == Entries(lines, hourOf) + [EntryOf(l, hourOf)]
  {
  }

  // ----- the report being written -----

  function ResultOf(result: map<int, Amounts>, h: int): Amounts {
    if h in result then result[h] else EMPTY
  }

  /** The hour starts at L0. */
  predicate BasedAt(result: map<int, Amounts>, h: int) {
    EMPTY.Plus(ResultOf(result, h)) == ResultOf(result, h)
  }

  ghost predicate Based(result: map<int, Amounts>) {
    forall h :: BasedAt(result, h)
  }

  /** A report that starts at L0 cannot tell them apart. */
  predicate SameOnBase(a: Amounts, b: Amounts) {
    EMPTY.Plus(a) == EMPTY.Plus(b)
  }

  /** What is written for the hour, and the amounts in the cache if it is hour at, hold its entries. */
  predicate HeldAt(result: map<int, Amounts>, at: int, cached: Amounts, es: seq<Entry>, h: int) {
    ResultOf(result, h).Plus(if h == at then cached else NOTHING) == HourSum(es, h)
  }

  ghost predicate Held(result: map<int, Amounts>, at: int, cached: Amounts, es: seq<Entry>) {
    forall h :: HeldAt(result, at, cached, es, h)
  }

  /** The amounts were added to hour at. */
  predicate AddedAt(was: map<int, Amounts>, result: map<int, Amounts>, at: int, a: Amounts, h: int) {
    ResultOf(result, h) == if h == at then ResultOf(was, h).Plus(a) else ResultOf(was, h)
  }

  ghost predicate Added(was: map<int, Amounts>, result: map<int, Amounts>, at: int, a: Amounts) {
    forall h :: AddedAt(was, result, at, a, h)
  }

  lemma AddedOnce(was: map<int, Amounts>, at: int, a: Amounts)
    ensures Added(was, was[at := ResultOf(was, at).Plus(a)], at, a)
  {
  }

  lemma HeldStart(at: int)
    ensures Based(map[]) && Held(map[], at, NOTHING, [])
  {
    forall h ensures BasedAt(map[], h) {
      assert ResultOf(map[], h) == EMPTY;
    }
    forall h ensures HeldAt(map[], at, NOTHING, [], h) {
      assert ResultOf(map[], h) == EMPTY;
    }
  }

  /** Nothing is cached, so the hour of the cache does not matter. */
  lemma Realigned(result: map<int, Amounts>, at: int, at': int, es: seq<Entry>)
    requires Held(result, at, NOTHING, es)
    ensures Held(result, at', NOTHING, es)
  {
    forall h ensures HeldAt(result, at', NOTHING, es, h) {
      assert HeldAt(result, at, NOTHING, es, h);
    }
  }

  lemma HeldMore(result: map<int, Amounts>, at: int, cached: Amounts, es: seq<Entry>, more: Amounts)
    requires Held(result, at, cached, es)
    ensures Held(result, at, cached.Plus(more), es + [Entry(at, more)])
  {
    forall h ensures HeldAt(result, at, cached.Plus(more), es + [Entry(at, more)], h) {
      assert HeldAt(result, at, cached, es, h);
      HourSumNext(es, Entry(at, more), h);
      PlusLaws(ResultOf(result, h), cached, more);
    }
  }

  /** A finished hour is written: the report alone holds the entries. */
  lemma Written(was: map<int, Amounts>, result: map<int, Amounts>, at: int, cached: Amounts, es: seq<Entry>, h: int)
    requires HeldAt(was, at, cached, es, h) && AddedAt(was, result, at, cached, h)
    ensures ResultOf(result, h) == HourSum(es, h)
    ensures BasedAt(was, h) ==> BasedAt(result, h)
  {
    PlusLaws(EMPTY, ResultOf(was, h), cached);
    PlusLaws(ResultOf(was, h), cached, NOTHING);
  }

  lemma NextHour(result: map<int, Amounts>, es: seq<Entry>, at: int, more: Amounts, taken: Amounts, h: int)
    requires ResultOf(result, h) == HourSum(es, h) && BasedAt(result, h) && SameOnBase(taken, more)
    ensures HeldAt(result, at, taken, es + [Entry(at, more)], h)
  {
    HourSumNext(es, Entry(at, more), h);
    OnBase(ResultOf(result, h), taken, more);
    PlusLaws(ResultOf(result, h), taken, NOTHING);
  }

  lemma HeldOver(was: map<int, Amounts>, result: map<int, Amounts>, at: int, cached: Amounts, es: seq<Entry>, at': int, more: Amounts, taken: Amounts)
    requires Held(was, at, cached, es) && Added(was, result, at, cached) && Based(was) && SameOnBase(taken, more)
    ensures Based(result) && Held(result, at', taken, es + [Entry(at', more)])
  {
    forall h ensures BasedAt(result, h) {
      OverAt(was, result, at, cached, es, at', more, taken, h);
    }
    forall h ensures HeldAt(result, at', taken, es + [Entry(at', more)], h) {
      OverAt(was, result, at, cached, es, at', more, taken, h);
    }
  }

  lemma OverAt(was: map<int, Amounts>, result: map<int, Amounts>, at: int, cached: Amounts, es: seq<Entry>, at': int, more: Amounts, taken: Amounts, h: int)
    requires Held(was, at, cached, es) && Added(was, result, at, cached) && Based(was) && SameOnBase(taken, more)
    ensures BasedAt(result, h) && HeldAt(result, at', taken, es + [Entry(at', more)], h)
  {
    assert HeldAt(was, at, cached, es, h);
    assert AddedAt(was, result, at, cached, h);
    assert BasedAt(was, h);
    Written(was, result, at, cached, es, h);
    NextHour(result, es, at', more, taken, h);
  }

  /** What starts at L0 cannot tell a missing entry from L0. */
  lemma OnBase(r: Amounts, taken: Amounts, more: Amounts)
    requires EMPTY.Plus(r) == r && SameOnBase(taken, more)
    ensures r.Plus(taken) == r.Plus(more)
  {
    PlusLaws(EMPTY, r, taken);
    PlusLaws(EMPTY, taken, r);
    PlusLaws(EMPTY, r, more);
    PlusLaws(EMPTY, more, r);
  }

  // ----- IntraDay -----

  class IntraDay {
    const hourOf: int -> int
    const cache: Cache
    var result: map<int, Amounts>
    var aligned: bool
    ghost var lines: seq<Line>      // the lines handled so far

    ghost predicate Valid()
      reads this, cache
    {
      && cache.Valid() && cache.step == AddHour && Clockwork(hourOf) && Based(result)
      && Held(result, hourOf(cache.time), AmountsOf(cache.cells), Entries(lines, hourOf))
      && (aligned ==> cache.time % 4 == 0 && lines != [] && cache.time <= lines[|lines| - 1].time)
      && (!aligned ==> lines == [] && AmountsOf(cache.cells) == NOTHING)
    }

    constructor (hourOf: int -> int, countCons: nat, countProd: nat, start: int)
      requires Clockwork(hourOf)
      ensures Valid() && lines == [] && fresh(cache) && cache.consLen == countCons * 3 && cache.prodLen == countProd * 2 && this.hourOf == hourOf
    {
      this.hourOf := hourOf;
      cache := new Cache(AddHour, countCons, countProd, start);
      result, aligned, lines := map[], false, [];
      new;
      AmountsOfNone(cache.consLen, cache.prodLen);
      HeldStart(hourOf(start));
      assert Entries([], hourOf) == [];
    }

    /** addToResult. */
    method AddToResult(t: int, c: Cells)
      requires Even(c)
      modifies this`result
      ensures Added(old(result), result, hourOf(t), AmountsOf(c))
    {
      var h := hourOf(t);
      var sum := AddAmounts(ResultOf(result, h), c);
      AddedOnce(result, h, AmountsOf(c));
      result := result[h := sum];
    }

    /** The cache starts in the hour of the first line. */
    method Align(ts: int)
      requires Valid() && !aligned
      modifies this`aligned, cache`time
      ensures aligned && cache.Valid() && cache.time % 4 == 0 && cache.time <= ts
      ensures cache.cells == old(cache.cells) && Held(result, hourOf(cache.time), AmountsOf(cache.cells), Entries(lines, hourOf))
    {
      aligned := true;
      HourStart(ts);
      Realigned(result, hourOf(cache.time), hourOf(ts - ts % 4), Entries(lines, hourOf));
      cache.time := ts - ts % 4;
    }

    /** The line goes into the bucket of its hour. */
    method CacheHour(l: Line) returns (full: Option<Bucket>)
      requires cache.Valid() && cache.step == AddHour && Clockwork(hourOf)
      requires cache.time % 4 == 0 && cache.time <= l.time && |l.cells.cons| <= cache.consLen && |l.cells.prod| <= cache.prodLen
      modifies cache`time, cache`cells
      ensures cache.Valid() && cache.time % 4 == 0 && cache.time <= l.time && hourOf(cache.time) == hourOf(l.time)
      ensures full.None? ==> cache.time == old(cache.time) && cache.cells == Joined(old(cache.cells), l.cells)
      ensures full.Some? ==> full.value == Bucket(old(cache.time), old(cache.cells)) && cache.cells == Taken(l.cells, cache.consLen, cache.prodLen)
    {
      full := cache.CacheLine(l.time, l.cells);
      if full.Some? {
        HoursAligned(old(cache.time), cache.time);
      }
      SameHour(hourOf, cache.time, l.time);
    }

    /** HandleLine; the lines come in ascending order. */
    method HandleLine(l: Line)
      requires Valid() && Fitting(l.cells, cache.consLen, cache.prodLen) && (lines != [] ==> lines[|lines| - 1].time < l.time)
      modifies this`result, this`aligned, this`lines, cache`time, cache`cells
      ensures Valid() && lines == old(lines) + [l]
    {
      if !aligned {
        Align(l.time);
      }
      AddLine(l);
      lines := lines + [l];
    }

    method AddLine(l: Line)
      requires cache.Valid() && cache.step == AddHour && Clockwork(hourOf) && Based(result)
      requires Held(result, hourOf(cache.time), AmountsOf(cache.cells), Entries(lines, hourOf))
      requires cache.time % 4 == 0 && cache.time <= l.time && Fitting(l.cells, cache.consLen, cache.prodLen)
      modifies this`result, cache`time, cache`cells
      ensures cache.Valid() && cache.time % 4 == 0 && cache.time <= l.time && Based(result)
      ensures Held(result, hourOf(cache.time), AmountsOf(cache.cells), Entries(lines + [l], hourOf))
    {
      ghost var at, cells, es := hourOf(cache.time), cache.cells, Entries(lines, hourOf);
      EntriesNext(lines, l, hourOf);
      var full := CacheHour(l);
      if full.Some? {
        Emit(full.value, l, at, es);
      } else {
        LineJoins(result, at, cells, es, l, hourOf, cache.consLen, cache.prodLen);
      }
    }

    /** A finished hour goes into the report; the cache holds the line of another hour. */
    method Emit(full: Bucket, l: Line, ghost at: int, ghost es: seq<Entry>)
      requires Based(result) && Held(result, at, AmountsOf(full.cells), es) && at == hourOf(full.time) && Even(full.cells)
      requires cache.Valid() && Fitting(l.cells, cache.consLen, cache.prodLen) && cache.cells == Taken(l.cells, cache.consLen, cache.prodLen)
      modifies this`result
      ensures Based(result) && Held(result, hourOf(l.time), AmountsOf(cache.cells), es + [EntryOf(l, hourOf)])
    {
      ghost var was := result;
      AddToResult(full.time, full.cells);
      AmountsOfTaken(l.cells, cache.consLen, cache.prodLen);
      HeldOver(was, result, at, AmountsOf(full.cells), es, hourOf(l.time), RowAmounts(l.cells), AmountsOf(cache.cells));
    }

    /** HandleEnd: every hour of the day holds exactly what its lines add up to. */
    method HandleEnd()
      requires Valid()
      modifies this`result
      ensures forall h :: ResultOf(result, h) == HourSum(Entries(lines, hourOf), h)
    {
      ghost var was := result;
      AddToResult(cache.time, cache.cells);
      EndHeld(was, result, hourOf(cache.time), AmountsOf(cache.cells), Entries(lines, hourOf));
    }
  }

  /** A line of the hour in the cache. */
  lemma LineJoins(result: map<int, Amounts>, at: int, cells: Cells, es: seq<Entry>, l: Line, hourOf: int -> int, m: nat, n: nat)
    requires Held(result, at, AmountsOf(cells), es) && Fitting(l.cells, m, n) && Fits(cells, m, n) && at == hourOf(l.time)
    ensures Held(result, at, AmountsOf(Joined(cells, l.cells)), es + [EntryOf(l, hourOf)])
  {
    AmountsOfJoined(cells, l.cells, m, n);
    HeldMore(result, at, AmountsOf(cells), es, RowAmounts(l.cells));
  }

  lemma EndHeld(was: map<int, Amounts>, result: map<int, Amounts>, at: int, cached: Amounts, es: seq<Entry>)
    requires Held(was, at, cached, es) && Added(was, result, at, cached)
    ensures forall h :: ResultOf(result, h) == HourSum(es, h)
  {
    forall h ensures ResultOf(result, h) == HourSum(es, h) {
      assert HeldAt(was, at, cached, es, h) && AddedAt(was, result, at, cached, h);
      Written(was, result, at, cached, es, h);
    }
  }

  lemma HourStart(t: int)
    ensures (t - t % 4) % 4 == 0 && t - t % 4 <= t
  {
  }

  lemma SameHour(hourOf: int -> int, start: int, t: int)
    requires Clockwork(hourOf) && start % 4 == 0 && start <= t < start + 4
    ensures hourOf(start) == hourOf(t)
  {
    assert t - t % 4 == start;
  }

  lemma HoursAligned(start: int, t: int)
    requires Reached(AddHour, start, t) && start % 4 == 0
    ensures t % 4 == 0
  {
    var n: nat :| Steps(AddHour, start, n) == t;
    HourSteps(start, n);
  }

  lemma {:induction false} HourSteps(start: int, n: nat)
    ensures Steps(AddHour, start, n) == start + 4 * n
  {
    if n > 0 {
      HourSteps(start, n - 1);
    }
  }

  // ----- fill rows -----

  lemma FillCounts(m: nat, n: nat)
    ensures SameOnBase(RowAmounts(FillCells(m, n)), NOTHING)
  {
    var a, b := Up(m, 3), Up(n, 2);
    ColumnOfZeros(a, 3, 0);
    ColumnOfZeros(a, 3, 1);
    ColumnOfZeros(a, 3, 2);
    ColumnOfZeros(b, 2, 0);
    ColumnOfZeros(b, 2, 1);
    assert Filled(FillCells(m, n)) == FillCells(a, b);
    EvenLevels(Same(a, 0));
    EvenLevels(Same(b, 0));
    LevelOfSame(a, 0, 3);
    LevelOfSame(b, 0, 2);
  }

  lemma {:induction false} HourSumBased(es: seq<Entry>, h: int)
    ensures EMPTY.Plus(HourSum(es, h)) == HourSum(es, h)
  {
    if es != [] {
      HourSumBased(es[..|es| - 1], h);
      PlusLaws(EMPTY, HourSum(es[..|es| - 1], h), es[|es| - 1].amounts);
    }
  }

  /** A last entry that adds nothing. */
  lemma DropLast(es: seq<Entry>, h: int)
    requires es != [] && SameOnBase(es[|es| - 1].amounts, NOTHING)
    ensures HourSum(es, h) == HourSum(es[..|es| - 1], h)
  {
    var init := es[..|es| - 1];
    HourSumBased(init, h);
    OnBase(HourSum(init, h), es[|es| - 1].amounts, NOTHING);
    PlusLaws(HourSum(init, h), NOTHING, NOTHING);
  }

  /** Entries from k on that add nothing. */
  lemma {:induction false} DropEmpty(es: seq<Entry>, k: nat, h: int)
    requires k <= |es| && forall i :: k <= i < |es| ==> SameOnBase(es[i].amounts, NOTHING)
    ensures HourSum(es, h) == HourSum(es[..k], h)
    decreases |es|
  {
    if k < |es| {
      var n := |es| - 1;
      DropLast(es, h);
      DropEmpty(es[..n], k, h);
      PrefixOfPrefix(es, n, k);
    } else {
      assert es[..k] == es;
    }
  }

  /** Filling gaps changes no hour of the report. */
  lemma {:induction false} FillsDoNotCount(rows: seq<Line>, fed: seq<Line>, hourOf: int -> int, m: nat, n: nat, h: int)
    requires FilledUp(rows, fed, FillCells(m, n))
    ensures HourSum(Entries(fed, hourOf), h) == HourSum(Entries(rows, hourOf), h)
    decreases |rows|
  {
    if rows != [] {
      var fill, l := FillCells(m, n), rows[|rows| - 1];
      var k :| 0 <= k < |fed| && FilledUp(rows[..|rows| - 1], fed[..k], fill) && FillsThen(fed, k, fill, l);
      FillsDoNotCount(rows[..|rows| - 1], fed[..k], hourOf, m, n, h);
      FillsDropped(fed, k, hourOf, m, n, l, h);
      LastEntry(fed, hourOf, h);
      LastEntry(rows, hourOf, h);
    }
  }

  lemma FillsDropped(fed: seq<Line>, k: nat, hourOf: int -> int, m: nat, n: nat, l: Line, h: int)
    requires k < |fed| && FillsThen(fed, k, FillCells(m, n), l)
    ensures HourSum(Entries(fed[..|fed| - 1], hourOf), h) == HourSum(Entries(fed[..k], hourOf), h)
  {
    var es := Entries(fed[..|fed| - 1], hourOf);
    FillCounts(m, n);
    assert es[..k] == Entries(fed[..k], hourOf);
    DropEmpty(es, k, h);
  }

  lemma LastEntry(lines: seq<Line>, hourOf: int -> int, h: int)
    requires lines != []
    ensures var e := EntryOf(lines[|lines| - 1], hourOf);
            var before := HourSum(Entries(lines[..|lines| - 1], hourOf), h);
            HourSum(Entries(lines, hourOf), h) == if e.hour == h then before.Plus(e.amounts) else before
  {
    var init, l := lines[..|lines| - 1], lines[|lines| - 1];
    InitLast(lines);
    EntriesNext(init, l, hourOf);
    HourSumNext(Entries(init, hourOf), EntryOf(l, hourOf), h);
  }

  lemma {:induction false} HoursAgree(a: seq<Entry>, b: seq<Entry>, hours: nat)
    requires forall h :: HourSum(a, h) == HourSum(b, h)
    ensures HoursSum(a, hours) == HoursSum(b, hours)
  {
    if hours > 0 {
      HoursAgree(a, b, hours - 1);
    }
  }

  // ----- the whole query -----

  /** The first hours of a report, one after the other. */
  function ReportSum(report: map<int, Amounts>, hours: nat): Amounts {
    if hours == 0 then EMPTY else ReportSum(report, hours - 1).Plus(ResultOf(report, hours - 1))
  }

  lemma {:induction false} ReportIsHours(report: map<int, Amounts>, es: seq<Entry>, hours: nat)
    requires forall h :: ResultOf(report, h) == HourSum(es, h)
    ensures ReportSum(report, hours) == HoursSum(es, hours)
  {
    if hours > 0 {
      ReportIsHours(report, es, hours - 1);
    }
  }

  ghost predicate AllFitting(lines: seq<Line>, m: nat, n: nat) {
    forall i :: 0 <= i < |lines| ==> Fitting(lines[i].cells, m, n)
  }

  /** A query for the hourly report: gaps are filled, and every hour of the day holds exactly what the
      stored rows of that hour add up to. */
  method HourlyReport(exists_: int -> bool, rows: seq<Line>, countCons: nat, countProd: nat, start: int, hourOf: int -> int)
    returns (report: map<int, Amounts>)
    requires Ascending(rows) && AllFitting(rows, countCons * 3, countProd * 2) && Clockwork(hourOf)
    ensures forall h :: ResultOf(report, h) == HourSum(Entries(rows, hourOf), h)
    ensures ReportSum(report, 24) == Sum(Entries(rows, hourOf))
  {
    var fed := Query(exists_, rows, countCons, countProd);
    FedFitting(exists_, rows, fed, countCons * 3, countProd * 2);
    report := RunIntraDay(fed, countCons, countProd, start, hourOf);
    forall h ensures HourSum(Entries(fed, hourOf), h) == HourSum(Entries(rows, hourOf), h) {
      FillsDoNotCount(rows, fed, hourOf, countCons * 3, countProd * 2, h);
    }
    DayOfReport(report, rows, hourOf, 24);
  }

  lemma DayOfReport(report: map<int, Amounts>, rows: seq<Line>, hourOf: int -> int, hours: nat)
    requires Clockwork(hourOf) && hours == 24 && forall h :: ResultOf(report, h) == HourSum(Entries(rows, hourOf), h)
    ensures ReportSum(report, hours) == Sum(Entries(rows, hourOf))
  {
    ReportIsHours(report, Entries(rows, hourOf), hours);
    forall e | e in Entries(rows, hourOf) ensures 0 <= e.hour < hours {
      var i :| 0 <= i < |rows| && Entries(rows, hourOf)[i] == e;
      assert 0 <= hourOf(rows[i].time) < 24;
    }
    HoursMakeSum(Entries(rows, hourOf), hours);
  }

  method RunIntraDay(fed: seq<Line>, countCons: nat, countProd: nat, start: int, hourOf: int -> int) returns (report: map<int, Amounts>)
    requires Clockwork(hourOf) && AllFitting(fed, countCons * 3, countProd * 2) && Ascending(fed)
    ensures forall h :: ResultOf(report, h) == HourSum(Entries(fed, hourOf), h)
  {
    var day := new IntraDay(hourOf, countCons, countProd, start);
    RunLines(day, fed);
    day.HandleEnd();
    report := day.result;
  }

  method RunLines(day: IntraDay, fed: seq<Line>)
    requires day.Valid() && day.lines == [] && AllFitting(fed, day.cache.consLen, day.cache.prodLen) && Ascending(fed)
    modifies day`result, day`aligned, day`lines, day.cache`time, day.cache`cells
    ensures day.Valid() && day.lines == fed
  {
    for i := 0 to |fed|
      invariant day.Valid() && day.lines == fed[..i]
    {
      assert fed[..i + 1] == fed[..i] + [fed[i]];
      day.HandleLine(fed[i]);
    }
    assert fed[..|fed|] == fed;
  }

  lemma FedFitting(exists_: int -> bool, rows: seq<Line>, fed: seq<Line>, m: nat, n: nat)
    requires AllFitting(rows, m, n) && Fed(exists_, rows, fed, FillCells(m, n))
    ensures AllFitting(fed, m, n)
  {
    forall i | 0 <= i < |fed| ensures Fitting(fed[i].cells, m, n) {
      assert fed[i] in fed;
      if fed[i] in rows {
        var k :| 0 <= k < |rows| && rows[k] == fed[i];
      }
    }
  }
}
