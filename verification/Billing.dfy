/** The checks before a billing run for every requested entry: quarter hours with a value, missing ones
    and days with substitute values, and the totals of the community (store/billingcheck_function.go).
    Days are numbered from the start of the period; slots are the quarter hours of the wall clock. */
module Billing {
  import opened Calendar
  import opened Rows
  import opened StoreLaws
  import opened Seqs

  const SLOTS := 96

  /** A row of the period. */
  datatype Line = Line(day: int, slot: int, row: Row)

  /** Chronological order, each quarter hour once. */
  ghost predicate Chronological(lines: seq<Line>) {
    forall i, j :: 0 <= i < j < |lines| ==> lines[i].day < lines[j].day || (lines[i].day == lines[j].day && lines[i].slot < lines[j].slot)
  }

  // ----- the clock -----

  /** The wall-clock quarter hours that exist on a day: all but those the clock skips in spring. */
  datatype Clock = Clock(exists_: (int, int) -> bool)
  {
    ghost function Existing(day: int): set<int> {
      set s | 0 <= s < SLOTS && exists_(day, s)
    }
  }

  /** quarterHoursOnDay. */
  method QuarterHoursOnDay(c: Clock, day: int) returns (n: nat)
    ensures n == |c.Existing(day)|
  {
    n := 0;
    ghost var done: set<int> := {};
    for h := 0 to 24
      invariant done == set s | 0 <= s < 4 * h && c.exists_(day, s)
      invariant n == |done|
    {
      for q := 0 to 4
        invariant done == set s | 0 <= s < 4 * h + q && c.exists_(day, s)
        invariant n == |done|
      {
        var s := 4 * h + q;
        if c.exists_(day, s) {
          assert s !in done;
          done := done + {s};
          n := n + 1;
        }
      }
    }
    assert done == c.Existing(day);
  }

  // ----- one line -----

  /** The quality of a slot: none beyond the values, L1 without an entry. */
  function SlotQuality(values: seq<real>, qovs: seq<int>, k: nat): int {
    if k >= |values| then 0 else if k < |qovs| then qovs[k] else 1
  }

  ghost predicate HasQuality(r: Row, dir: Direction, idx: nat, only: Option<int>) {
    exists j :: 0 <= j < Width(dir) && Matches(SlotQuality(Values(r, dir), Quality(r, dir), Slot(dir, idx, j)), only)
  }

  predicate Matches(q: int, only: Option<int>) {
    if only.Some? then q == only.value else q != 0
  }

  ghost predicate HasValue(r: Row, dir: Direction, idx: nat) {
    HasQuality(r, dir, idx, None)
  }

  ghost predicate HasL3(r: Row, dir: Direction, idx: nat) {
    HasQuality(r, dir, idx, Some(3))
  }

  /** slotQuality. */
  method InspectQuality(r: Row, dir: Direction, idx: nat) returns (hasValue: bool, hasL3: bool)
    ensures hasValue <==> HasValue(r, dir, idx)
    ensures hasL3 <==> HasL3(r, dir, idx)
  {
    hasValue, hasL3 := false, false;
    var values, qovs := Values(r, dir), Quality(r, dir);
    for j := 0 to Width(dir)
      invariant hasValue <==> exists i :: 0 <= i < j && Matches(SlotQuality(values, qovs, Slot(dir, idx, i)), None)
      invariant hasL3 <==> exists i :: 0 <= i < j && Matches(SlotQuality(values, qovs, Slot(dir, idx, i)), Some(3))
    {
      var k := Slot(dir, idx, j);
      if k >= |values| {
        assert forall i :: j <= i < Width(dir) ==> SlotQuality(values, qovs, Slot(dir, idx, i)) == 0;
        assert forall i :: 0 <= i < Width(dir) && i >= j ==> !Matches(SlotQuality(values, qovs, Slot(dir, idx, i)), None);
        break;
      }
      var q := if k < |qovs| then qovs[k] else 1;
      assert q == SlotQuality(values, qovs, Slot(dir, idx, j));
      hasValue := hasValue || q != 0;
      hasL3 := hasL3 || q == 3;
    }
  }

  // ----- one entry -----

  /** A requested entry; active from and to the given days, without a bound if None. known: the metering
      point is registered with the requested direction. */
  datatype Entry = Entry(known: bool, dir: Direction, idx: nat, since: Option<int>, until: Option<int>)
  {
    predicate ActiveOn(day: int) {
      (since.Some? ==> since.value <= day) && (until.Some? ==> day <= until.value)
    }

    /** The line has a value of the entry in its active time. */
    ghost predicate ValueIn(l: Line) {
      known && ActiveOn(l.day) && HasValue(l.row, dir, idx)
    }

    ghost predicate L3In(l: Line) {
      known && ActiveOn(l.day) && HasL3(l.row, dir, idx)
    }
  }

  /** The slots with a value of the entry on a day. */
  ghost function Present(e: Entry, lines: seq<Line>, day: int): set<int> {
    set i | 0 <= i < |lines| && lines[i].day == day && e.ValueIn(lines[i]) :: lines[i].slot
  }

  ghost predicate RisingDays(days: seq<int>) {
    forall i, j :: 0 <= i < j < |days| ==> days[i] < days[j]
  }

  /** The lines lie in the period and on existing wall times. */
  ghost predicate InPeriod(c: Clock, lines: seq<Line>, last: nat) {
    forall i :: 0 <= i < |lines| ==> 0 <= lines[i].day <= last && lines[i].slot in c.Existing(lines[i].day)
  }

  lemma PresentNext(e: Entry, lines: seq<Line>, l: Line, day: int)
    requires Chronological(lines + [l])
    ensures Present(e, lines + [l], day) == if l.day == day && e.ValueIn(l) then Present(e, lines, day) + {l.slot} else Present(e, lines, day)
    ensures l.day == day ==> l.slot !in Present(e, lines, day)
  {
    var more := lines + [l];
    assert forall i :: 0 <= i < |lines| ==> more[i] == lines[i];
    assert more[|lines|] == l;
    forall s | s in Present(e, more, day) ensures s in (if l.day == day && e.ValueIn(l) then Present(e, lines, day) + {l.slot} else Present(e, lines, day)) {
      var i :| 0 <= i < |more| && more[i].day == day && e.ValueIn(more[i]) && more[i].slot == s;
      if i < |lines| {
        assert lines[i].slot in Present(e, lines, day);
      }
    }
    forall s | s in Present(e, lines, day) ensures s in Present(e, more, day) {
      var i :| 0 <= i < |lines| && lines[i].day == day && e.ValueIn(lines[i]) && lines[i].slot == s;
      assert more[i].slot in Present(e, more, day);
    }
    if l.day == day {
      assert forall i :: 0 <= i < |lines| && lines[i].day == day ==> more[i].slot < more[|lines|].slot;
    }
  }

  /** Every slot with a value exists. */
  lemma PresentExists(c: Clock, e: Entry, lines: seq<Line>, last: nat, day: int)
    requires InPeriod(c, lines, last)
    ensures Present(e, lines, day) <= c.Existing(day)
    ensures |Present(e, lines, day)| <= |c.Existing(day)|
  {
    SubsetSize(Present(e, lines, day), c.Existing(day));
  }

  /** The existing quarter hours of the days. */
  ghost function Expected(c: Clock, from: int, to: int): int
    decreases to - from
  {
    if to < from then 0 else Expected(c, from, to - 1) + |c.Existing(to)|
  }

  /** The quarter hours of the days that have a value of the entry. */
  ghost function Got(e: Entry, lines: seq<Line>, from: int, to: int): int
    decreases to - from
  {
    if to < from then 0 else Got(e, lines, from, to - 1) + |Present(e, lines, to)|
  }

  /** The quarter hours of a day that have no value. */
  ghost function Missing(c: Clock, e: Entry, lines: seq<Line>, d: int): nat {
    if |Present(e, lines, d)| < |c.Existing(d)| then |c.Existing(d)| - |Present(e, lines, d)| else 0
  }

  ghost function AllMissing(c: Clock, e: Entry, lines: seq<Line>, from: int, to: int): nat
    decreases to - from
  {
    if to < from then 0 else AllMissing(c, e, lines, from, to - 1) + Missing(c, e, lines, to)
  }

  /** For rows of the period on existing wall times, quarter hours with a value and missing ones make up
      the existing ones. */
  lemma {:induction false} MissingPlusGot(c: Clock, e: Entry, lines: seq<Line>, last: nat, from: int, upTo: int)
    requires InPeriod(c, lines, last)
    ensures Got(e, lines, from, upTo) + AllMissing(c, e, lines, from, upTo) == Expected(c, from, upTo)
    decreases upTo - from
  {
    if from <= upTo {
      MissingPlusGot(c, e, lines, last, from, upTo - 1);
      PresentExists(c, e, lines, last, upTo);
    }
  }

  /** The number of lines with an L3 value. */
  ghost function L3Lines(e: Entry, lines: seq<Line>): nat {
    if lines == [] then 0 else L3Lines(e, lines[..|lines| - 1]) + if e.L3In(lines[|lines| - 1]) then 1 else 0
  }

  /** The day at the end of the list, unless it stands there. */
  function Noted(days: seq<int>, day: int): seq<int> {
    if |days| == 0 || days[|days| - 1] != day then days + [day] else days
  }

  lemma L3LinesNext(e: Entry, lines: seq<Line>, l: Line)
    ensures L3Lines(e, lines + [l]) == L3Lines(e, lines) + if e.L3In(l) then 1 else 0
  {
    assert (lines + [l])[..|lines|] == lines;
  }

  ghost predicate L3DaysAre(e: Entry, lines: seq<Line>, days: seq<int>) {
    && RisingDays(days)
    && (forall d :: d in days ==> exists i :: 0 <= i < |lines| && lines[i].day == d && e.L3In(lines[i]))
    && (forall i :: 0 <= i < |lines| && e.L3In(lines[i]) ==> lines[i].day in days)
  }

  lemma L3DaysNext(e: Entry, lines: seq<Line>, l: Line, days: seq<int>)
    requires L3DaysAre(e, lines, days) && Chronological(lines + [l])
    ensures L3DaysAre(e, lines + [l], if e.L3In(l) then Noted(days, l.day) else days)
  {
    var more := lines + [l];
    assert forall i :: 0 <= i < |lines| ==> more[i] == lines[i];
    assert more[|lines|] == l;
    forall d | d in days ensures d <= l.day && exists i :: 0 <= i < |more| && more[i].day == d && e.L3In(more[i]) {
      var i :| 0 <= i < |lines| && lines[i].day == d && e.L3In(lines[i]);
      assert more[i].day == d && more[i].day <= more[|lines|].day;
    }
    forall k | 0 <= k < |days| ensures days[k] <= l.day {
      assert days[k] in days;
    }
  }

  /** First and last line with a value. */
  ghost predicate DataSpan(e: Entry, lines: seq<Line>, first: Option<Line>, latest: Option<Line>) {
    && (first.None? <==> latest.None?)
    && (first.None? ==> forall i :: 0 <= i < |lines| ==> !e.ValueIn(lines[i]))
    && (first.Some? ==> SpanIs(e, lines, first.value, latest.value))
  }

  ghost predicate SpanIs(e: Entry, lines: seq<Line>, first: Line, latest: Line)
  {
    exists a, b :: 0 <= a <= b < |lines| && lines[a] == first && lines[b] == latest && e.ValueIn(first) && e.ValueIn(latest)
                && forall i :: 0 <= i < |lines| && (i < a || b < i) ==> !e.ValueIn(lines[i])
  }

  lemma SpanGrows(e: Entry, lines: seq<Line>, l: Line, first: Line, latest: Line)
    requires SpanIs(e, lines, first, latest)
    ensures SpanIs(e, lines + [l], first, if e.ValueIn(l) then l else latest)
  {
    var more := lines + [l];
    var a, b :| 0 <= a <= b < |lines| && lines[a] == first && lines[b] == latest && e.ValueIn(first) && e.ValueIn(latest)
              && forall i :: 0 <= i < |lines| && (i < a || b < i) ==> !e.ValueIn(lines[i]);
    var b' := if e.ValueIn(l) then |lines| else b;
    assert more[a] == first && more[b'] == if e.ValueIn(l) then l else latest;
    assert forall i :: 0 <= i < |more| && (i < a || b' < i) ==> !e.ValueIn(more[i]);
  }

  lemma SpanStarts(e: Entry, lines: seq<Line>, l: Line)
    requires e.ValueIn(l) && forall i :: 0 <= i < |lines| ==> !e.ValueIn(lines[i])
    ensures SpanIs(e, lines + [l], l, l)
  {
    var more := lines + [l];
    assert more[|lines|] == l && forall i :: 0 <= i < |lines| ==> more[i] == lines[i];
  }

  lemma DataSpanNext(e: Entry, lines: seq<Line>, l: Line, first: Option<Line>, latest: Option<Line>)
    requires DataSpan(e, lines, first, latest)
    ensures if e.ValueIn(l) then DataSpan(e, lines + [l], if first.None? then Some(l) else first, Some(l)) else DataSpan(e, lines + [l], first, latest)
  {
    if first.Some? {
      SpanGrows(e, lines, l, first.value, latest.value);
    } else if e.ValueIn(l) {
      SpanStarts(e, lines, l);
    }
  }

  lemma RisingMore(days: seq<int>, day: int)
    requires RisingDays(days) && forall d :: d in days ==> d < day
    ensures RisingDays(days + [day])
  {
    assert forall k :: 0 <= k < |days| ==> days[k] in days;
  }

  class EntryCheck {
    const e: Entry
    const last: nat                 // the last day of the period
    var present: seq<int>           // quarter hours with a value per day; empty for an unknown entry
    var first: Option<Line>
    var latest: Option<Line>
    var l3Count: int
    var l3Days: seq<int>
    var missingCount: int
    var missingDays: seq<int>
    ghost var lines: seq<Line>      // the lines handled so far

    ghost predicate Counts()
      reads this
    {
      if e.known then |present| == last + 1 && forall d :: 0 <= d <= last ==> present[d] == |Present(e, lines, d)| else present == []
    }

    ghost predicate Valid()
      reads this
    {
      && Counts()
      && l3Count == L3Lines(e, lines) && L3DaysAre(e, lines, l3Days)
      && DataSpan(e, lines, first, latest)
    }

    /** HandleStart for this entry. */
    constructor (e: Entry, last: nat)
      ensures Valid() && this.e == e && this.last == last && lines == [] && missingCount == 0 && missingDays == []
    {
      this.e, this.last := e, last;
      present := if e.known then seq(last + 1, _ => 0) else [];
      first, latest, l3Count, l3Days, missingCount, missingDays := None, None, 0, [], 0, [];
      lines := [];
    }

    /** HandleLine for this entry. */
    method HandleLine(l: Line)
      requires Valid() && Chronological(lines + [l])
      modifies this`present, this`first, this`latest, this`l3Count, this`l3Days, this`lines
      ensures Valid() && lines == old(lines) + [l]
    {
      ghost var was := lines;
      var hasValue, hasL3 := false, false;
      if e.known && e.ActiveOn(l.day) {
        hasValue, hasL3 := InspectQuality(l.row, e.dir, e.idx);
      }
      AddSpan(l, hasValue);
      AddL3(l, hasL3);
      AddPresent(l, hasValue);
    }

    ghost predicate Took(lines: seq<Line>)
      reads this
    {
      Valid() && this.lines == lines
    }

    method TakeLine(l: Line, ghost lines: seq<Line>, ghost more: seq<Line>)
      requires Took(lines) && Chronological(more) && more == lines + [l]
      modifies this
      ensures Took(more)
    {
      HandleLine(l);
    }

    method AddSpan(l: Line, hasValue: bool)
      requires DataSpan(e, lines, first, latest) && hasValue == e.ValueIn(l)
      modifies this`first, this`latest
      ensures DataSpan(e, lines + [l], first, latest)
    {
      DataSpanNext(e, lines, l, first, latest);
      if hasValue {
        if first.None? {
          first := Some(l);
        }
        latest := Some(l);
      }
    }

    method AddL3(l: Line, hasL3: bool)
      requires L3DaysAre(e, lines, l3Days) && l3Count == L3Lines(e, lines) && Chronological(lines + [l]) && hasL3 == e.L3In(l)
      modifies this`l3Count, this`l3Days
      ensures L3DaysAre(e, lines + [l], l3Days) && l3Count == L3Lines(e, lines + [l])
    {
      L3LinesNext(e, lines, l);
      L3DaysNext(e, lines, l, l3Days);
      if hasL3 {
        l3Count := l3Count + 1;
        l3Days := Noted(l3Days, l.day);
      }
    }

    method AddPresent(l: Line, hasValue: bool)
      requires Counts() && Chronological(lines + [l]) && hasValue == e.ValueIn(l)
      modifies this`present, this`lines
      ensures Counts() && lines == old(lines) + [l]
    {
      forall d ensures |Present(e, lines + [l], d)| == |Present(e, lines, d)| + if l.day == d && hasValue then 1 else 0 {
        PresentNext(e, lines, l, d);
      }
      lines := lines + [l];
      if hasValue && 0 <= l.day < |present| {
        present := present[l.day := present[l.day] + 1];
      }
    }

    /** The days of the period in the active time of the entry. */
    function From(): int
    {
      if e.since.Some? && e.since.value > 0 then e.since.value else 0
    }

    function To(): int
    {
      if e.until.Some? && e.until.value < last then e.until.value else last
    }

    /** The entry has data, but not for every quarter hour of the day. */
    ghost predicate Lacks(c: Clock, d: int)
      reads this
    {
      first.Some? && |Present(e, lines, d)| < |c.Existing(d)|
    }

    /** The list holds exactly those days of the span, in order. */
    ghost predicate LackingDays(c: Clock, from: int, upTo: int, days: seq<int>)
      reads this
    {
      RisingDays(days) && forall d :: d in days <==> from <= d <= upTo && Lacks(c, d)
    }

    lemma LackingNext(c: Clock, from: int, d: int, days: seq<int>)
      requires LackingDays(c, from, d - 1, days) && from <= d
      ensures LackingDays(c, from, d, if Lacks(c, d) then days + [d] else days)
    {
      RisingMore(days, d);
    }

    /** The quarter hours of the day without a value. */
    method MissingOn(c: Clock, d: int) returns (missing: nat)
      requires Counts() && 0 <= d <= last
      ensures missing == Missing(c, e, lines, d)
    {
      var expected := QuarterHoursOnDay(c, d);
      var got := 0;
      if e.known {
        got := present[d];
      } else {
        assert Present(e, lines, d) == {};
      }
      missing := if got < expected then expected - got else 0;
    }

    /** countMissing for this entry: the missing quarter hours of its active days, with the days that have
        some listed in order if there is any data. */
    method CountMissing(c: Clock)
      requires Valid() && missingCount == 0 && missingDays == []
      modifies this`missingCount, this`missingDays
      ensures missingCount == AllMissing(c, e, lines, From(), To())
      ensures InPeriod(c, lines, last) ==> Got(e, lines, From(), To()) + missingCount == Expected(c, From(), To())
      ensures LackingDays(c, From(), To(), missingDays)
    {
      var from, upTo := From(), To();
      var d := from;
      while d <= upTo
        invariant from <= d && (if from <= upTo then d <= upTo + 1 else d == from)
        invariant missingCount == AllMissing(c, e, lines, from, d - 1)
        invariant LackingDays(c, from, d - 1, missingDays)
        decreases upTo - d
      {
        var missing := MissingOn(c, d);
        LackingNext(c, from, d, missingDays);
        if missing > 0 {
          missingCount := missingCount + missing;
          if first.Some? {
            missingDays := missingDays + [d];
          }
        }
        d := d + 1;
      }
      assert upTo < from ==> AllMissing(c, e, lines, from, upTo) == 0;
      if InPeriod(c, lines, last) {
        MissingPlusGot(c, e, lines, last, from, upTo);
      }
    }
  }

  // ----- the whole check -----

  /** The sum of the values whose place leaves the given remainder. */
  function EverySum(s: seq<real>, width: nat, off: nat): real
    requires 0 < width
  {
    if s == [] then 0.0 else EverySum(s[..|s| - 1], width, off) + if (|s| - 1) % width == off then s[|s| - 1] else 0.0
  }

  datatype Totals = Totals(consumed: real, shared: real, covered: real, produced: real, surplus: real)
  {
    function Plus(o: Totals): Totals {
      Totals(consumed + o.consumed, shared + o.shared, covered + o.covered, produced + o.produced, surplus + o.surplus)
    }
  }

  function RowTotals(r: Row): Totals {
    Totals(EverySum(r.cons, 3, 0), EverySum(r.cons, 3, 1), EverySum(r.cons, 3, 2), EverySum(r.prod, 2, 0), EverySum(r.prod, 2, 1))
  }

  /** The totals of all metering points of the community over the lines. */
  function CommunityTotals(lines: seq<Line>): Totals {
    if lines == [] then Totals(0.0, 0.0, 0.0, 0.0, 0.0) else CommunityTotals(lines[..|lines| - 1]).Plus(RowTotals(lines[|lines| - 1].row))
  }

  lemma EveryNext(s: seq<real>, i: nat, width: nat, off: nat)
    requires i < |s| && 0 < width
    ensures EverySum(s[..i + 1], width, off) == EverySum(s[..i], width, off) + if i % width == off then s[i] else 0.0
  {
    assert s[..i + 1][..i] == s[..i];
  }

  method AddConsumers(s: seq<real>) returns (consumed: real, shared: real, covered: real)
    ensures consumed == EverySum(s, 3, 0) && shared == EverySum(s, 3, 1) && covered == EverySum(s, 3, 2)
  {
    consumed, shared, covered := 0.0, 0.0, 0.0;
    for i := 0 to |s|
      invariant consumed == EverySum(s[..i], 3, 0) && shared == EverySum(s[..i], 3, 1) && covered == EverySum(s[..i], 3, 2)
    {
      EveryNext(s, i, 3, 0);
      EveryNext(s, i, 3, 1);
      EveryNext(s, i, 3, 2);
      if i % 3 == 0 {
        consumed := consumed + s[i];
      } else if i % 3 == 1 {
        shared := shared + s[i];
      } else {
        covered := covered + s[i];
      }
    }
    assert s[..|s|] == s;
  }

  method AddProducers(s: seq<real>) returns (produced: real, surplus: real)
    ensures produced == EverySum(s, 2, 0) && surplus == EverySum(s, 2, 1)
  {
    produced, surplus := 0.0, 0.0;
    for i := 0 to |s|
      invariant produced == EverySum(s[..i], 2, 0) && surplus == EverySum(s[..i], 2, 1)
    {
      EveryNext(s, i, 2, 0);
      EveryNext(s, i, 2, 1);
      if i % 2 == 0 {
        produced := produced + s[i];
      } else {
        surplus := surplus + s[i];
      }
    }
    assert s[..|s|] == s;
  }

  method AddRow(r: Row) returns (t: Totals)
    ensures t == RowTotals(r)
  {
    var consumed, shared, covered := AddConsumers(r.cons);
    var produced, surplus := AddProducers(r.prod);
    t := Totals(consumed, shared, covered, produced, surplus);
  }

  lemma TotalsNext(lines: seq<Line>, l: Line)
    ensures CommunityTotals(lines + [l]) == CommunityTotals(lines).Plus(RowTotals(l.row))
  {
    assert (lines + [l])[..|lines|] == lines;
  }

  class BillingCheck {
    const entries: seq<EntryCheck>
    var totals: Totals

    /** The totals of the community and every entry have taken the lines in. */
    ghost predicate Handled(lines: seq<Line>)
      reads this, entries
    {
      totals == CommunityTotals(lines) && EntriesAt(lines)
    }

    ghost predicate EntriesAt(lines: seq<Line>)
      reads entries
    {
      && (forall i, j :: 0 <= i < j < |entries| ==> entries[i] != entries[j])
      && forall i :: 0 <= i < |entries| ==> entries[i].Took(lines)
    }

    constructor (entries: seq<EntryCheck>)
      requires forall i, j :: 0 <= i < j < |entries| ==> entries[i] != entries[j]
      requires forall i :: 0 <= i < |entries| ==> entries[i].Took([])
      ensures this.entries == entries && Handled([])
    {
      this.entries := entries;
      totals := Totals(0.0, 0.0, 0.0, 0.0, 0.0);
    }

    /** HandleLine: the totals of the community, and every entry on its own. */
    method HandleLine(l: Line, ghost lines: seq<Line>)
      requires Handled(lines) && Chronological(lines + [l])
      modifies this`totals, entries
      ensures Handled(lines + [l])
    {
      AddTotals(l, lines);
      HandleEntries(l, lines);
    }

    method AddTotals(l: Line, ghost lines: seq<Line>)
      requires totals == CommunityTotals(lines)
      modifies this`totals
      ensures totals == CommunityTotals(lines + [l])
    {
      var t := AddRow(l.row);
      TotalsNext(lines, l);
      totals := totals.Plus(t);
    }

    method HandleEntries(l: Line, ghost lines: seq<Line>)
      requires EntriesAt(lines) && Chronological(lines + [l])
      modifies entries
      ensures EntriesAt(lines + [l])
    {
      ghost var more := lines + [l];
      for n := 0 to |entries|
        invariant forall i {:trigger entries[i].Took(lines)} :: n <= i < |entries| ==> entries[i].Took(lines)
        invariant forall i {:trigger entries[i].Took(more)} :: 0 <= i < n ==> entries[i].Took(more)
      {
        entries[n].TakeLine(l, lines, more);
      }
    }
  }
}
