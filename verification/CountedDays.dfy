/** Which days of a period a report counts (calculation/EEGCalculationV2.go). The day callback gets the time
    of the day's first row, and a meter counts it if that lies between the midnights of its first and last
    day: the last day only counts if it has a row at midnight. */
module CountedDays {
  import opened Calendar
  import opened Buckets

  /** Every day but the first has the time of its first row. */
  lemma {:induction false} SegmentTimes(lines: seq<Line>, yearDay: int, cur: Segment, k: nat)
    requires k < |Segments(lines, yearDay, cur)|
    ensures var seg := Segments(lines, yearDay, cur)[k];
            (k == 0 ==> seg.time == cur.time) && (k > 0 ==> seg.lines != [] && seg.time == seg.lines[0].time)
    decreases |lines|
  {
    if lines != [] {
      if lines[0].yearDay != yearDay {
        if k > 0 {
          var next := Segment(lines[0].time, [lines[0]]);
          FirstKept(lines[1..], lines[0].yearDay, next);
          SegmentTimes(lines[1..], lines[0].yearDay, next, k - 1);
        }
      } else {
        SegmentTimes(lines[1..], yearDay, cur.(lines := cur.lines + [lines[0]]), k);
      }
    }
  }

  lemma {:induction false} FirstKept(lines: seq<Line>, yearDay: int, cur: Segment)
    requires cur.lines != []
    ensures Segments(lines, yearDay, cur) != []
    ensures var first := Segments(lines, yearDay, cur)[0]; first.lines != [] && first.lines[0] == cur.lines[0]
    decreases |lines|
  {
    if lines != [] && lines[0].yearDay == yearDay {
      FirstKept(lines[1..], yearDay, cur.(lines := cur.lines + [lines[0]]));
    }
  }

  lemma {:induction false} CountedHas(segs: seq<Segment>, from: int, until: int, seg: Segment)
    ensures seg in Counted(segs, from, until) <==> seg in segs && Counts(from, until, seg.time)
  {
    if segs != [] {
      var init, last := segs[..|segs| - 1], segs[|segs| - 1];
      assert segs == init + [last];
      CountedHas(init, from, until, seg);
    }
  }

  /** A time between the midnights of two days. */
  lemma CountsExactly(z: Zone, first: int, last: int, t: int)
    requires z.Valid()
    ensures Counts(z.midnight(first), z.midnight(last), t) <==> first <= z.day(t) && (z.day(t) < last || t == z.midnight(last))
  {
    MidnightDay(z, first);
    MidnightDay(z, last);
    if z.midnight(first) <= t {
      DayMonotone(z, z.midnight(first), t);
    } else {
      DayIsUnique(z, t, first);
      DayMonotone(z, t, z.midnight(first));
    }
    if t <= z.midnight(last) {
      DayMonotone(z, t, z.midnight(last));
      DayIsUnique(z, t, last);
    } else {
      DayMonotone(z, z.midnight(last), t);
    }
  }

  /** A day of the report counts for a meter with the given first and last day exactly if it lies between
      them, and is not the last one unless its first row is that of midnight. */
  lemma DayCounts(z: Zone, lines: seq<Line>, start: int, startYearDay: int, first: int, last: int, k: nat)
    requires z.Valid() && 0 < k < |Segments(lines, startYearDay, Segment(start, []))|
    ensures var segs := Segments(lines, startYearDay, Segment(start, []));
            && segs[k].lines != []
            && (var t := segs[k].lines[0].time;
                segs[k] in Counted(segs, z.midnight(first), z.midnight(last)) <==> first <= z.day(t) && (z.day(t) < last || t == z.midnight(last)))
  {
    var segs := Segments(lines, startYearDay, Segment(start, []));
    SegmentTimes(lines, startYearDay, Segment(start, []), k);
    CountedHas(segs, z.midnight(first), z.midnight(last), segs[k]);
    CountsExactly(z, first, last, segs[k].time);
  }

  /** A case for any zone and day: the row at 00:00 of the last day is missing, and the row at 00:15 with
      all that follow is not counted. */
  lemma LastDayMissed(z: Zone, last: int, l: Line, startYearDay: int)
    requires z.Valid() && l.time == z.midnight(last) + QUARTER && l.yearDay != startYearDay
    ensures var segs := Segments([l], startYearDay, Segment(z.midnight(last - 1), []));
            z.day(l.time) == last && l in LinesOf(segs) && l !in LinesOf(Counted(segs, z.midnight(last - 1), z.midnight(last)))
  {
    var start := Segment(z.midnight(last - 1), []);
    var mine := Segment(l.time, [l]);
    assert z.midnight(last) + 23 * HOUR <= z.midnight(last + 1);
    DayIsUnique(z, l.time, last);
    assert [l][1..] == [];
    var segs := Segments([l], startYearDay, start);
    assert segs == [start] + Segments([l][1..], l.yearDay, mine) == [start, mine];
    SegmentsPartition([l], startYearDay, start);
    var from, until := z.midnight(last - 1), z.midnight(last);
    assert segs[..1] == [start] && [start][..0] == [];
    assert Counted([start], from, until) == Counted([start][..0], from, until) + if Counts(from, until, start.time) then [start] else [];
    assert Counted(segs, from, until) == Counted(segs[..1], from, until);
    NoLines(Counted(segs, from, until), start);
  }

  lemma NoLines(segs: seq<Segment>, start: Segment)
    requires start.lines == [] && (segs == [] || segs == [start])
    ensures LinesOf(segs) == []
  {
    if segs == [start] {
      assert [start][1..] == [];
    }
  }
}
