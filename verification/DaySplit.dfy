/** SplitEnergyByDay: a message's energy cut into local days (mqttclient/energyExecutor.go). */
module DaySplit {
  import opened Calendar
  import opened Rows
  import opened Seqs

  function Max(a: int, b: int): int { if a < b then b else a }
  function Min(a: int, b: int): int { if a < b then a else b }

  /** The values overlapping [lo, hi), cut to it. */
  function ClipValues(vals: seq<Value>, lo: int, hi: int): seq<Value> {
    if vals == [] then []
    else
      var v := vals[0];
      var from, to := Max(v.from, lo), Min(v.to, hi);
      (if from < to then [v.(from := from, to := to)] else []) + ClipValues(vals[1..], lo, hi)
  }

  /** An entry without a value in the span is left out. */
  function ClipEntry(c: CodeData, lo: int, hi: int): seq<CodeData> {
    var values := ClipValues(c.values, lo, hi);
    if values == [] then [] else [CodeData(c.code, values)]
  }

  function ClipData(data: seq<CodeData>, lo: int, hi: int): seq<CodeData> {
    if data == [] then [] else ClipEntry(data[0], lo, hi) + ClipData(data[1..], lo, hi)
  }

  /** The part of src on day d, or nothing. */
  function OnDayOf(z: Zone, src: Energy, d: int): seq<Energy> {
    var lo, hi := Max(z.midnight(d), src.start), Min(z.midnight(d + 1), src.end);
    var data := ClipData(src.data, lo, hi);
    if data == [] then [] else [Energy(lo, hi - QUARTER, data)]
  }

  function SplitFrom(z: Zone, src: Energy, d: int, last: int): seq<Energy>
    decreases last - d
  {
    if last < d then [] else OnDayOf(z, src, d) + SplitFrom(z, src, d + 1, last)
  }

  /** The day blocks of src, by ascending day. */
  function Split(z: Zone, src: Energy): seq<Energy> {
    SplitFrom(z, src, z.day(src.start), z.day(src.end))
  }

  // ----- the loops -----

  method CutValues(vals: seq<Value>, lo: int, hi: int) returns (values: seq<Value>)
    ensures values == ClipValues(vals, lo, hi)
  {
    values := [];
    var j := 0;
    while j < |vals|
      invariant 0 <= j <= |vals|
      invariant values + ClipValues(vals[j..], lo, hi) == ClipValues(vals, lo, hi)
    {
      var v := vals[j];
      assert vals[j..][1..] == vals[j + 1..];
      var from, to := Max(v.from, lo), Min(v.to, hi);
      if from < to {
        values := values + [v.(from := from, to := to)];
      }
      j := j + 1;
    }
  }

  method CutDay(data: seq<CodeData>, lo: int, hi: int) returns (dayData: seq<CodeData>)
    ensures dayData == ClipData(data, lo, hi)
  {
    dayData := [];
    var i := 0;
    while i < |data|
      invariant 0 <= i <= |data|
      invariant dayData + ClipData(data[i..], lo, hi) == ClipData(data, lo, hi)
    {
      assert data[i..][1..] == data[i + 1..];
      Assoc(dayData, ClipEntry(data[i], lo, hi), ClipData(data[i + 1..], lo, hi));
      var values := CutValues(data[i].values, lo, hi);
      dayData := dayData + if |values| > 0 then [CodeData(data[i].code, values)] else [];
      i := i + 1;
    }
  }

  ghost predicate SplitSoFar(z: Zone, src: Energy, result: seq<Energy>, d: int) {
    result + SplitFrom(z, src, d, z.day(src.end)) == Split(z, src)
  }

  lemma SplitNext(z: Zone, src: Energy, result: seq<Energy>, d: int)
    requires d <= z.day(src.end) && SplitSoFar(z, src, result, d)
    ensures SplitSoFar(z, src, result + OnDayOf(z, src, d), d + 1)
  {
    Assoc(result, OnDayOf(z, src, d), SplitFrom(z, src, d + 1, z.day(src.end)));
  }

  method CutBlock(z: Zone, src: Energy, day: int, next: int, ghost d: int) returns (part: seq<Energy>)
    requires day == z.midnight(d) && next == z.midnight(d + 1)
    ensures part == OnDayOf(z, src, d)
  {
    var dayStart, dayEnd := Max(day, src.start), Min(next, src.end);
    var dayData := CutDay(src.data, dayStart, dayEnd);
    part := if |dayData| > 0 then [Energy(dayStart, dayEnd - QUARTER, dayData)] else [];
  }

  /** The midnight after that of day d, and the order of midnights. */
  lemma FollowingDay(z: Zone, d: int, last: int)
    requires z.Valid()
    ensures z.NextDayStart(z.midnight(d)) == z.midnight(d + 1)
    ensures z.midnight(d) <= z.midnight(last) <==> d <= last
  {
    MidnightDay(z, d);
    MidnightOrder(z, d, last);
  }

  method SplitEnergyByDay(z: Zone, src: Energy) returns (result: seq<Energy>)
    requires z.Valid()
    ensures result == Split(z, src)
  {
    result := [];
    var day := z.DayStart(src.start);
    var endDay := z.DayStart(src.end);
    ghost var d := z.day(src.start);
    FollowingDay(z, d, z.day(src.end));
    var next := z.NextDayStart(day);
    while day <= endDay
      invariant day == z.midnight(d) && next == z.midnight(d + 1)
      invariant day <= endDay <==> d <= z.day(src.end)
      invariant SplitSoFar(z, src, result, d)
      decreases z.day(src.end) - d
    {
      var part := CutBlock(z, src, day, next, d);
      SplitNext(z, src, result, d);
      result := result + part;
      d := d + 1;
      FollowingDay(z, d, z.day(src.end));
      day, next := next, z.NextDayStart(next);
    }
  }

  // ----- what the blocks hold -----

  /** The block starts, ends and has all its values on day d. */
  ghost predicate WithinDay(z: Zone, e: Energy, d: int) {
    z.day(e.start) == d && z.day(e.end) == d && DataOn(z, e.data, d)
  }

  ghost predicate DataOn(z: Zone, data: seq<CodeData>, d: int) {
    forall c, v :: c in data && v in c.values ==> z.day(v.from) == d
  }

  /** The values lie between the bounds. */
  ghost predicate Bounded(data: seq<CodeData>, lo: int, hi: int) {
    forall c, v :: c in data && v in c.values ==> lo <= v.from < v.to <= hi
  }

  /** The end is a local midnight or at least a quarter hour after one. */
  predicate RegularEnd(z: Zone, src: Energy) {
    src.end == z.DayStart(src.end) || z.DayStart(src.end) + QUARTER <= src.end
  }

  lemma {:induction false} ClipBounds(vals: seq<Value>, lo: int, hi: int)
    ensures forall v :: v in ClipValues(vals, lo, hi) ==> lo <= v.from < v.to <= hi
  {
    if vals != [] {
      ClipBounds(vals[1..], lo, hi);
    }
  }

  lemma {:induction false} ClipDataBounds(data: seq<CodeData>, lo: int, hi: int)
    ensures Bounded(ClipData(data, lo, hi), lo, hi)
    ensures ClipData(data, lo, hi) != [] ==> lo < hi
  {
    if data != [] {
      ClipBounds(data[0].values, lo, hi);
      ClipDataBounds(data[1..], lo, hi);
      var values := ClipValues(data[0].values, lo, hi);
      if values != [] {
        assert values[0] in values;
      }
    }
  }

  lemma DayIsLong(z: Zone, d: int)
    requires z.Valid()
    ensures z.midnight(d) + QUARTER <= z.midnight(d + 1)
  {
    assert z.midnight(d) + 23 * HOUR <= z.midnight(d + 1);
  }

  /** A period that ends on day d ends at least a quarter hour into it. */
  lemma EndIsLate(z: Zone, src: Energy, d: int)
    requires z.Valid() && RegularEnd(z, src) && z.midnight(d) < src.end < z.midnight(d + 1)
    ensures z.midnight(d) + QUARTER <= src.end
  {
    DayIsUnique(z, src.end, d);
  }

  lemma LastQuarter(z: Zone, src: Energy, d: int, lo: int, hi: int)
    requires z.Valid() && RegularEnd(z, src)
    requires z.midnight(d) <= lo < hi && hi == Min(z.midnight(d + 1), src.end)
    ensures z.midnight(d) <= hi - QUARTER < z.midnight(d + 1)
  {
    if z.midnight(d + 1) <= src.end {
      DayIsLong(z, d);
    } else {
      EndIsLate(z, src, d);
    }
  }

  lemma PartWithinDay(z: Zone, src: Energy, d: int)
    requires z.Valid() && RegularEnd(z, src)
    ensures forall e :: e in OnDayOf(z, src, d) ==> WithinDay(z, e, d)
  {
    var lo, hi := Max(z.midnight(d), src.start), Min(z.midnight(d + 1), src.end);
    var data := ClipData(src.data, lo, hi);
    if data != [] {
      ClipDataBounds(src.data, lo, hi);
      MaxAbove(z.midnight(d), src.start);
      BlockWithinDay(z, src, d, lo, hi, data);
      OnlyOne(OnDayOf(z, src, d), Energy(lo, hi - QUARTER, data));
    }
  }

  lemma MaxAbove(a: int, b: int)
    ensures a <= Max(a, b) && b <= Max(a, b)
  {
  }

  lemma OnlyOne<T>(s: seq<T>, x: T)
    requires s == [x]
    ensures forall y :: y in s ==> y == x
  {
  }

  lemma BlockWithinDay(z: Zone, src: Energy, d: int, lo: int, hi: int, data: seq<CodeData>)
    requires z.Valid() && RegularEnd(z, src) && z.midnight(d) <= lo < hi && hi == Min(z.midnight(d + 1), src.end) && Bounded(data, lo, hi)
    ensures WithinDay(z, Energy(lo, hi - QUARTER, data), d)
  {
    LastQuarter(z, src, d, lo, hi);
    OnThatDay(z, lo, hi - QUARTER, d);
    ValuesOnDay(z, data, lo, hi, d);
  }

  lemma OnThatDay(z: Zone, s: int, t: int, d: int)
    requires z.Valid() && z.midnight(d) <= s < z.midnight(d + 1) && z.midnight(d) <= t < z.midnight(d + 1)
    ensures z.day(s) == d && z.day(t) == d
  {
    DayIsUnique(z, s, d);
    DayIsUnique(z, t, d);
  }

  lemma ValuesOnDay(z: Zone, data: seq<CodeData>, lo: int, hi: int, d: int)
    requires z.Valid() && z.midnight(d) <= lo && hi <= z.midnight(d + 1)
    requires Bounded(data, lo, hi)
    ensures DataOn(z, data, d)
  {
    forall c, v | c in data && v in c.values ensures z.day(v.from) == d {
      DayIsUnique(z, v.from, d);
    }
  }

  ghost predicate DaysIn(z: Zone, blocks: seq<Energy>, d: int, last: int) {
    forall e :: e in blocks ==> d <= z.day(e.start) <= last && DataOn(z, e.data, z.day(e.start))
  }

  ghost predicate DaysAscend(z: Zone, blocks: seq<Energy>) {
    forall i, j :: 0 <= i < j < |blocks| ==> z.day(blocks[i].start) < z.day(blocks[j].start)
  }

  ghost predicate EndOnTheirDay(z: Zone, blocks: seq<Energy>) {
    forall e :: e in blocks ==> z.day(e.end) == z.day(e.start)
  }

  /** Every block starts and has its values on one local day, and the days ascend. */
  lemma {:induction false} SplitWithinDays(z: Zone, src: Energy, d: int, last: int)
    requires z.Valid()
    ensures DaysIn(z, SplitFrom(z, src, d, last), d, last)
    ensures DaysAscend(z, SplitFrom(z, src, d, last))
    ensures RegularEnd(z, src) ==> EndOnTheirDay(z, SplitFrom(z, src, d, last))
    decreases last - d
  {
    if d <= last {
      PartOnDay(z, src, d);
      SplitWithinDays(z, src, d + 1, last);
      DaysConcat(z, OnDayOf(z, src, d), SplitFrom(z, src, d + 1, last), d, last);
      if RegularEnd(z, src) {
        PartWithinDay(z, src, d);
        EndsConcat(z, OnDayOf(z, src, d), SplitFrom(z, src, d + 1, last), d);
      }
    }
  }

  lemma EndsConcat(z: Zone, head: seq<Energy>, rest: seq<Energy>, d: int)
    requires (forall e :: e in head ==> WithinDay(z, e, d)) && EndOnTheirDay(z, rest)
    ensures EndOnTheirDay(z, head + rest)
  {
  }

  ghost predicate StartsOn(z: Zone, e: Energy, d: int) {
    z.day(e.start) == d && DataOn(z, e.data, d)
  }

  lemma DaysConcat(z: Zone, head: seq<Energy>, rest: seq<Energy>, d: int, last: int)
    requires d <= last && |head| <= 1 && (forall e :: e in head ==> StartsOn(z, e, d))
    requires DaysIn(z, rest, d + 1, last) && DaysAscend(z, rest)
    ensures DaysIn(z, head + rest, d, last) && DaysAscend(z, head + rest)
  {
    if |head| == 1 {
      assert head[0] in head;
      forall i | 0 <= i < |rest| ensures z.day(head[0].start) < z.day(rest[i].start) {
        assert rest[i] in rest;
      }
    }
  }

  lemma PartOnDay(z: Zone, src: Energy, d: int)
    requires z.Valid()
    ensures forall e :: e in OnDayOf(z, src, d) ==> StartsOn(z, e, d)
  {
    var lo, hi := Max(z.midnight(d), src.start), Min(z.midnight(d + 1), src.end);
    var data := ClipData(src.data, lo, hi);
    if data != [] {
      ClipDataBounds(src.data, lo, hi);
      OnThatDay(z, lo, lo, d);
      ValuesOnDay(z, data, lo, hi, d);
      OnlyOne(OnDayOf(z, src, d), Energy(lo, hi - QUARTER, data));
    }
  }

  /** The block of a day ends on the day before exactly if the period ends within the first quarter
      hour of the day. */
  lemma EndsBefore(z: Zone, src: Energy, d: int)
    requires z.Valid() && OnDayOf(z, src, d) != []
    ensures z.day(OnDayOf(z, src, d)[0].end) == d <==> z.midnight(d) + QUARTER <= src.end
  {
    var lo, hi := Max(z.midnight(d), src.start), Min(z.midnight(d + 1), src.end);
    ClipDataBounds(src.data, lo, hi);
    DayIsLong(z, d);
    DayIsUnique(z, hi - QUARTER, d);
  }

  // ----- conservation -----

  /** The values of the entries one after the other, with their code. */
  function Flat(data: seq<CodeData>): seq<(MeterCode, Value)> {
    if data == [] then [] else Tagged(data[0].code, data[0].values) + Flat(data[1..])
  }

  function Tagged(code: MeterCode, vals: seq<Value>): seq<(MeterCode, Value)> {
    if vals == [] then [] else [(code, vals[0])] + Tagged(code, vals[1..])
  }

  function FlatBlocks(blocks: seq<Energy>): seq<(MeterCode, Value)> {
    if blocks == [] then [] else Flat(blocks[0].data) + FlatBlocks(blocks[1..])
  }

  /** The tagged values that lie on day d, in their order. */
  function Kept(z: Zone, s: seq<(MeterCode, Value)>, d: int): seq<(MeterCode, Value)> {
    if s == [] then [] else (if z.day(s[0].1.from) == d then [s[0]] else []) + Kept(z, s[1..], d)
  }

  /** The part of a tagged value on day d of the period, if any. */
  function Clipped(z: Zone, src: Energy, x: (MeterCode, Value), d: int): seq<(MeterCode, Value)> {
    var from, to := Max(x.1.from, Max(z.midnight(d), src.start)), Min(x.1.to, Min(z.midnight(d + 1), src.end));
    if from < to then [(x.0, x.1.(from := from, to := to))] else []
  }

  function ClippedAll(z: Zone, src: Energy, s: seq<(MeterCode, Value)>, d: int): seq<(MeterCode, Value)> {
    if s == [] then [] else Clipped(z, src, s[0], d) + ClippedAll(z, src, s[1..], d)
  }

  /** A value inside the period that does not cross a local midnight. */
  ghost predicate Regular(z: Zone, src: Energy, v: Value) {
    src.start <= v.from < v.to <= src.end && v.to <= z.midnight(z.day(v.from) + 1)
  }

  ghost predicate RegularValues(z: Zone, src: Energy) {
    forall c, v :: c in src.data && v in c.values ==> Regular(z, src, v)
  }

  lemma {:induction false} KeptConcat(z: Zone, s: seq<(MeterCode, Value)>, t: seq<(MeterCode, Value)>, d: int)
    ensures Kept(z, s + t, d) == Kept(z, s, d) + Kept(z, t, d)
  {
    if s == [] {
      assert s + t == t;
    } else {
      assert (s + t)[1..] == s[1..] + t;
      KeptConcat(z, s[1..], t, d);
    }
  }

  /** Cutting a regular value to a day leaves it as it is or leaves it out. */
  lemma ClipRegular(z: Zone, src: Energy, v: Value, d: int)
    requires z.Valid() && Regular(z, src, v)
    ensures var lo, hi := Max(z.midnight(d), src.start), Min(z.midnight(d + 1), src.end);
            var from, to := Max(v.from, lo), Min(v.to, hi);
            && (from < to <==> z.day(v.from) == d)
            && (from < to ==> from == v.from && to == v.to)
  {
    DayIsUnique(z, v.from, d);
    if z.day(v.from) < d {
      MidnightsAscend(z, z.day(v.from) + 1, d);
    } else if d < z.day(v.from) {
      MidnightsAscend(z, d + 1, z.day(v.from));
    }
  }

  lemma {:induction false} ClippedConcat(z: Zone, src: Energy, s: seq<(MeterCode, Value)>, t: seq<(MeterCode, Value)>, d: int)
    ensures ClippedAll(z, src, s + t, d) == ClippedAll(z, src, s, d) + ClippedAll(z, src, t, d)
  {
    if s == [] {
      assert s + t == t;
    } else {
      assert (s + t)[1..] == s[1..] + t;
      ClippedConcat(z, src, s[1..], t, d);
    }
  }

  lemma {:induction false} ClipKeeps(z: Zone, src: Energy, code: MeterCode, vals: seq<Value>, d: int)
    ensures Tagged(code, ClipValues(vals, Max(z.midnight(d), src.start), Min(z.midnight(d + 1), src.end))) == ClippedAll(z, src, Tagged(code, vals), d)
  {
    if vals != [] {
      var lo, hi := Max(z.midnight(d), src.start), Min(z.midnight(d + 1), src.end);
      ClipKeeps(z, src, code, vals[1..], d);
      var rest := ClipValues(vals[1..], lo, hi);
      assert Tagged(code, vals)[1..] == Tagged(code, vals[1..]);
      var from, to := Max(vals[0].from, lo), Min(vals[0].to, hi);
      if from < to {
        var v := vals[0].(from := from, to := to);
        assert ClipValues(vals, lo, hi) == [v] + rest;
        assert ([v] + rest)[1..] == rest;
      } else {
        assert ClipValues(vals, lo, hi) == rest;
      }
    }
  }

  lemma {:induction false} ClipDataKeeps(z: Zone, src: Energy, data: seq<CodeData>, d: int)
    ensures Flat(ClipData(data, Max(z.midnight(d), src.start), Min(z.midnight(d + 1), src.end))) == ClippedAll(z, src, Flat(data), d)
  {
    if data != [] {
      var lo, hi := Max(z.midnight(d), src.start), Min(z.midnight(d + 1), src.end);
      ClipKeeps(z, src, data[0].code, data[0].values, d);
      ClipDataKeeps(z, src, data[1..], d);
      ClippedConcat(z, src, Tagged(data[0].code, data[0].values), Flat(data[1..]), d);
      var values, rest := ClipValues(data[0].values, lo, hi), ClipData(data[1..], lo, hi);
      if values != [] {
        assert ClipData(data, lo, hi) == [CodeData(data[0].code, values)] + rest;
        assert ClipData(data, lo, hi)[1..] == rest;
      } else {
        assert ClipData(data, lo, hi) == rest;
      }
    }
  }

  /** Regular values are kept as they are. */
  lemma {:induction false} RegularClips(z: Zone, src: Energy, s: seq<(MeterCode, Value)>, d: int)
    requires z.Valid() && forall x :: x in s ==> Regular(z, src, x.1)
    ensures ClippedAll(z, src, s, d) == Kept(z, s, d)
  {
    if s != [] {
      assert s[0] in s;
      ClipRegular(z, src, s[0].1, d);
      RegularClips(z, src, s[1..], d);
    }
  }

  lemma {:induction false} FlatBlocksConcat(a: seq<Energy>, b: seq<Energy>)
    ensures FlatBlocks(a + b) == FlatBlocks(a) + FlatBlocks(b)
  {
    if a == [] {
      assert a + b == b;
    } else {
      assert (a + b)[1..] == a[1..] + b;
      FlatBlocksConcat(a[1..], b);
    }
  }

  /** The block of a day holds every value's part of that day, with its energy and quality, in order. */
  lemma DayHoldsItsParts(z: Zone, src: Energy, d: int)
    ensures FlatBlocks(OnDayOf(z, src, d)) == ClippedAll(z, src, Flat(src.data), d)
  {
    ClipDataKeeps(z, src, src.data, d);
    var data := ClipData(src.data, Max(z.midnight(d), src.start), Min(z.midnight(d + 1), src.end));
    if data != [] {
      var e := OnDayOf(z, src, d)[0];
      assert [e][1..] == [];
    }
  }

  /** If no value crosses a midnight, the block of a day holds exactly the values of that day, unchanged
      and in their order. */
  lemma DayHoldsItsValues(z: Zone, src: Energy, d: int)
    requires z.Valid() && RegularValues(z, src)
    ensures FlatBlocks(OnDayOf(z, src, d)) == Kept(z, Flat(src.data), d)
  {
    DayHoldsItsParts(z, src, d);
    forall x | x in Flat(src.data) ensures Regular(z, src, x.1) {
      FlatHas(src.data, x);
      var c :| c in src.data && x.1 in c.values;
    }
    RegularClips(z, src, Flat(src.data), d);
  }

  ghost function Count(z: Zone, s: seq<(MeterCode, Value)>, x: (MeterCode, Value), from: int, last: int): nat {
    if from <= z.day(x.1.from) <= last then multiset(s)[x] else 0
  }

  lemma {:induction false} KeptCount(z: Zone, s: seq<(MeterCode, Value)>, d: int, x: (MeterCode, Value))
    ensures multiset(Kept(z, s, d))[x] == if z.day(x.1.from) == d then multiset(s)[x] else 0
  {
    if s != [] {
      KeptCount(z, s[1..], d, x);
      assert s == [s[0]] + s[1..];
      assert multiset(s) == multiset{s[0]} + multiset(s[1..]);
    }
  }

  lemma {:induction false} SplitCounts(z: Zone, src: Energy, d: int, last: int, x: (MeterCode, Value))
    requires z.Valid() && RegularValues(z, src)
    ensures multiset(FlatBlocks(SplitFrom(z, src, d, last)))[x] == Count(z, Flat(src.data), x, d, last)
    decreases last - d
  {
    if d <= last {
      DayHoldsItsValues(z, src, d);
      KeptCount(z, Flat(src.data), d, x);
      SplitCounts(z, src, d + 1, last, x);
      FlatBlocksConcat(OnDayOf(z, src, d), SplitFrom(z, src, d + 1, last));
    }
  }

  lemma {:induction false} FlatHas(data: seq<CodeData>, x: (MeterCode, Value))
    requires x in Flat(data)
    ensures exists c :: c in data && x.1 in c.values
  {
    if x in Tagged(data[0].code, data[0].values) {
      TaggedHas(data[0].code, data[0].values, x);
    } else {
      FlatHas(data[1..], x);
    }
  }

  lemma {:induction false} TaggedHas(code: MeterCode, vals: seq<Value>, x: (MeterCode, Value))
    requires x in Tagged(code, vals)
    ensures x.1 in vals
  {
    if x != (code, vals[0]) {
      TaggedHas(code, vals[1..], x);
    }
  }

  lemma {:induction false} FlatHolds(data: seq<CodeData>, c: CodeData, v: Value)
    requires c in data && v in c.values
    ensures (c.code, v) in Flat(data)
  {
    if c == data[0] {
      TaggedHolds(c.code, c.values, v);
    } else {
      FlatHolds(data[1..], c, v);
    }
  }

  lemma {:induction false} TaggedHolds(code: MeterCode, vals: seq<Value>, v: Value)
    requires v in vals
    ensures (code, v) in Tagged(code, vals)
  {
    if v != vals[0] {
      TaggedHolds(code, vals[1..], v);
    }
  }

  lemma {:induction false} ClippedRegular(z: Zone, src: Energy, s: seq<(MeterCode, Value)>, d: int, x: (MeterCode, Value))
    requires z.Valid() && x in ClippedAll(z, src, s, d)
    ensures Regular(z, src, x.1)
  {
    if x in Clipped(z, src, s[0], d) {
      DayIsUnique(z, x.1.from, d);
    } else {
      ClippedRegular(z, src, s[1..], d, x);
    }
  }

  lemma {:induction false} SplitRegular(z: Zone, src: Energy, d: int, last: int, x: (MeterCode, Value))
    requires z.Valid() && x in FlatBlocks(SplitFrom(z, src, d, last))
    ensures Regular(z, src, x.1)
    decreases last - d
  {
    if d <= last {
      DayHoldsItsParts(z, src, d);
      FlatBlocksConcat(OnDayOf(z, src, d), SplitFrom(z, src, d + 1, last));
      if x in FlatBlocks(OnDayOf(z, src, d)) {
        ClippedRegular(z, src, Flat(src.data), d, x);
      } else {
        SplitRegular(z, src, d + 1, last, x);
      }
    }
  }

  /** Every value of the message is in exactly one block, that of its day, as often as it came. */
  lemma RegularConserves(z: Zone, src: Energy)
    requires z.Valid() && RegularValues(z, src)
    ensures multiset(FlatBlocks(Split(z, src))) == multiset(Flat(src.data))
  {
    forall x: (MeterCode, Value) ensures multiset(FlatBlocks(Split(z, src)))[x] == multiset(Flat(src.data))[x] {
      SplitCounts(z, src, z.day(src.start), z.day(src.end), x);
      if x in Flat(src.data) {
        FlatHas(src.data, x);
        var c :| c in src.data && x.1 in c.values;
        assert Regular(z, src, x.1);
        DayMonotone(z, src.start, x.1.from);
        DayMonotone(z, x.1.from, src.end);
      }
    }
  }

  /** The cut keeps the values, each as often as it came, exactly if they lie in the period and none
      crosses a midnight. */
  lemma SplitConserves(z: Zone, src: Energy)
    requires z.Valid()
    ensures multiset(FlatBlocks(Split(z, src))) == multiset(Flat(src.data)) <==> RegularValues(z, src)
  {
    if RegularValues(z, src) {
      RegularConserves(z, src);
    } else {
      var c, v :| c in src.data && v in c.values && !Regular(z, src, v);
      FlatHolds(src.data, c, v);
      if multiset(FlatBlocks(Split(z, src))) == multiset(Flat(src.data)) {
        assert (c.code, v) in multiset(Flat(src.data));
        SplitRegular(z, src, z.day(src.start), z.day(src.end), (c.code, v));
      }
    }
  }

  function Total(s: seq<(MeterCode, Value)>, code: MeterCode): real {
    if s == [] then 0.0 else (if s[0].0 == code then s[0].1.kwh else 0.0) + Total(s[1..], code)
  }

  lemma {:induction false} TotalConcat(s: seq<(MeterCode, Value)>, t: seq<(MeterCode, Value)>, code: MeterCode)
    ensures Total(s + t, code) == Total(s, code) + Total(t, code)
  {
    if s == [] {
      assert s + t == t;
    } else {
      assert (s + t)[1..] == s[1..] + t;
      TotalConcat(s[1..], t, code);
    }
  }

  lemma {:induction false} TotalOfSame(s: seq<(MeterCode, Value)>, t: seq<(MeterCode, Value)>, code: MeterCode)
    requires multiset(s) == multiset(t)
    ensures Total(s, code) == Total(t, code)
    decreases |s|
  {
    if s == [] {
      assert |multiset(t)| == 0;
    } else {
      var i := PlaceOf(t, s[0]);
      TotalWithout(t, i, code);
      TotalWithout(s, 0, code);
      FirstOut(s);
      TotalOfSame(s[1..], t[..i] + t[i + 1..], code);
    }
  }

  lemma PlaceOf(t: seq<(MeterCode, Value)>, x: (MeterCode, Value)) returns (i: nat)
    requires x in multiset(t)
    ensures i < |t| && t[i] == x
  {
    i :| 0 <= i < |t| && t[i] == x;
  }

  lemma FirstOut<T>(s: seq<T>)
    requires s != []
    ensures s[..0] + s[0 + 1..] == s[1..]
  {
  }

  lemma TotalWithout(t: seq<(MeterCode, Value)>, i: nat, code: MeterCode)
    requires i < |t|
    ensures Total(t, code) == (if t[i].0 == code then t[i].1.kwh else 0.0) + Total(t[..i] + t[i + 1..], code)
    ensures multiset(t[..i] + t[i + 1..]) == multiset(t) - multiset{t[i]}
  {
    var l, r := t[..i], t[i + 1..];
    assert t == l + ([t[i]] + r);
    TotalConcat(l, r, code);
    TotalConcat(l, [t[i]] + r, code);
    assert ([t[i]] + r)[1..] == r;
  }

  /** The energy of every meter code is the same before and after the cut. */
  lemma SplitKeepsEnergy(z: Zone, src: Energy, code: MeterCode)
    requires z.Valid() && RegularValues(z, src)
    ensures Total(FlatBlocks(Split(z, src)), code) == Total(Flat(src.data), code)
  {
    RegularConserves(z, src);
    TotalOfSame(FlatBlocks(Split(z, src)), Flat(src.data), code);
  }

  // ----- energy of values that cross a midnight -----

  /** On how many of the days the value has a part. */
  function Times(z: Zone, src: Energy, x: (MeterCode, Value), d: int, last: int): nat
    decreases last - d
  {
    if last < d then 0 else |Clipped(z, src, x, d)| + Times(z, src, x, d + 1, last)
  }

  function Share(kwh: real, n: nat): real {
    if n == 0 then 0.0 else kwh + Share(kwh, n - 1)
  }

  /** The energy of the code, every value counted for each day it has a part on. */
  function Weighted(z: Zone, src: Energy, s: seq<(MeterCode, Value)>, code: MeterCode, d: int, last: int): real
    decreases |s|
  {
    if s == [] then 0.0
    else (if s[0].0 == code then Share(s[0].1.kwh, Times(z, src, s[0], d, last)) else 0.0) + Weighted(z, src, s[1..], code, d, last)
  }

  lemma OneClip(z: Zone, src: Energy, x: (MeterCode, Value), code: MeterCode, d: int, last: int)
    requires d <= last
    ensures (if x.0 == code then Share(x.1.kwh, Times(z, src, x, d, last)) else 0.0)
         == Total(Clipped(z, src, x, d), code) + if x.0 == code then Share(x.1.kwh, Times(z, src, x, d + 1, last)) else 0.0
  {
    var c := Clipped(z, src, x, d);
    assert Times(z, src, x, d, last) == |c| + Times(z, src, x, d + 1, last);
    if c != [] {
      assert c[1..] == [];
    }
  }

  lemma {:induction false} WeightedNext(z: Zone, src: Energy, s: seq<(MeterCode, Value)>, code: MeterCode, d: int, last: int)
    requires d <= last
    ensures Weighted(z, src, s, code, d, last) == Total(ClippedAll(z, src, s, d), code) + Weighted(z, src, s, code, d + 1, last)
    decreases |s|
  {
    if s != [] {
      WeightedNext(z, src, s[1..], code, d, last);
      OneClip(z, src, s[0], code, d, last);
      TotalConcat(Clipped(z, src, s[0], d), ClippedAll(z, src, s[1..], d), code);
    }
  }

  lemma {:induction false} WeightedNone(z: Zone, src: Energy, s: seq<(MeterCode, Value)>, code: MeterCode, d: int, last: int)
    requires last < d
    ensures Weighted(z, src, s, code, d, last) == 0.0
    decreases |s|
  {
    if s != [] {
      WeightedNone(z, src, s[1..], code, d, last);
    }
  }

  /** The cut copies the energy of a value to every day it has a part on: for any values and any period
      the energy of the blocks is that of the values, each counted once per day. */
  lemma {:induction false} SplitEnergyTimes(z: Zone, src: Energy, code: MeterCode, d: int, last: int)
    ensures Total(FlatBlocks(SplitFrom(z, src, d, last)), code) == Weighted(z, src, Flat(src.data), code, d, last)
    decreases last - d
  {
    if last < d {
      WeightedNone(z, src, Flat(src.data), code, d, last);
    } else {
      SplitEnergyTimes(z, src, code, d + 1, last);
      DayHoldsItsParts(z, src, d);
      WeightedNext(z, src, Flat(src.data), code, d, last);
      FlatBlocksConcat(OnDayOf(z, src, d), SplitFrom(z, src, d + 1, last));
      TotalConcat(FlatBlocks(OnDayOf(z, src, d)), FlatBlocks(SplitFrom(z, src, d + 1, last)), code);
    }
  }

  /** A value of the period that is not negative, as a meter sends it. */
  ghost predicate Inside(src: Energy, x: (MeterCode, Value)) {
    src.start <= x.1.from < x.1.to <= src.end && x.1.kwh >= 0.0
  }

  predicate Crosses(z: Zone, v: Value) {
    z.midnight(z.day(v.from) + 1) < v.to
  }

  lemma {:induction false} TimesOnce(z: Zone, src: Energy, x: (MeterCode, Value), d: int, last: int)
    requires z.Valid() && Regular(z, src, x.1)
    ensures Times(z, src, x, d, last) == if d <= z.day(x.1.from) <= last then 1 else 0
    decreases last - d
  {
    if d <= last {
      ClipRegular(z, src, x.1, d);
      TimesOnce(z, src, x, d + 1, last);
    }
  }

  lemma {:induction false} TimesTwice(z: Zone, src: Energy, x: (MeterCode, Value), d: int, last: int, k: int)
    requires d <= k < last && Clipped(z, src, x, k) != [] && Clipped(z, src, x, k + 1) != []
    ensures Times(z, src, x, d, last) >= 2
    decreases last - d
  {
    if d < k {
      TimesTwice(z, src, x, d + 1, last, k);
    } else {
      assert Times(z, src, x, d, last) == |Clipped(z, src, x, d)| + (|Clipped(z, src, x, d + 1)| + Times(z, src, x, d + 2, last));
    }
  }

  lemma CrossingParts(z: Zone, src: Energy, x: (MeterCode, Value), k: int)
    requires z.Valid() && Inside(src, x) && k == z.day(x.1.from) && Crosses(z, x.1)
    ensures Clipped(z, src, x, k) != [] && Clipped(z, src, x, k + 1) != [] && k < z.day(src.end)
  {
    var m := z.midnight(k + 1);
    DayIsUnique(z, x.1.from, k);
    DayIsLong(z, k + 1);
    DayIsUnique(z, m, k + 1);
    DayMonotone(z, m, src.end);
  }

  /** A value of the period has one part, or more if it crosses a midnight. */
  lemma TimesExact(z: Zone, src: Energy, x: (MeterCode, Value))
    requires z.Valid() && Inside(src, x)
    ensures var n := Times(z, src, x, z.day(src.start), z.day(src.end)); n >= 1 && (n == 1 <==> !Crosses(z, x.1))
  {
    DayMonotone(z, src.start, x.1.from);
    DayMonotone(z, x.1.from, src.end);
    if Crosses(z, x.1) {
      CrossingParts(z, src, x, z.day(x.1.from));
      TimesTwice(z, src, x, z.day(src.start), z.day(src.end), z.day(x.1.from));
    } else {
      TimesOnce(z, src, x, z.day(src.start), z.day(src.end));
    }
  }

  lemma {:induction false} ShareMore(kwh: real, n: nat)
    requires kwh >= 0.0 && n >= 1
    ensures Share(kwh, n) >= kwh && (Share(kwh, n) == kwh <==> n == 1 || kwh == 0.0)
  {
    if n > 1 {
      ShareMore(kwh, n - 1);
    }
  }

  ghost predicate NoneCrosses(z: Zone, s: seq<(MeterCode, Value)>, code: MeterCode) {
    forall x :: x in s && x.0 == code && x.1.kwh > 0.0 ==> !Crosses(z, x.1)
  }

  /** The value counts for at least its energy, and for that exactly unless it crosses a midnight. */
  ghost predicate ExactlyOnce(z: Zone, src: Energy, x: (MeterCode, Value)) {
    var e := Share(x.1.kwh, Times(z, src, x, z.day(src.start), z.day(src.end)));
    e >= x.1.kwh && (e == x.1.kwh <==> (x.1.kwh > 0.0 ==> !Crosses(z, x.1)))
  }

  lemma {:induction false} WeightedExact(z: Zone, src: Energy, s: seq<(MeterCode, Value)>, code: MeterCode)
    requires forall i :: 0 <= i < |s| ==> ExactlyOnce(z, src, s[i])
    ensures var w := Weighted(z, src, s, code, z.day(src.start), z.day(src.end));
            w >= Total(s, code) && (w == Total(s, code) <==> NoneCrosses(z, s, code))
    decreases |s|
  {
    if s != [] {
      var d, last := z.day(src.start), z.day(src.end);
      WeightedExact(z, src, s[1..], code);
      assert ExactlyOnce(z, src, s[0]);
      NoneCrossesNext(z, s, code);
      if s[0].0 == code {
        BothExact(Weighted(z, src, s[1..], code, d, last), Total(s[1..], code), NoneCrosses(z, s[1..], code),
                  Share(s[0].1.kwh, Times(z, src, s[0], d, last)), s[0].1.kwh, s[0].1.kwh > 0.0 ==> !Crosses(z, s[0].1));
      }
    }
  }

  lemma BothExact(a: real, b: real, same: bool, c: real, d: real, same': bool)
    requires a >= b && (a == b <==> same) && c >= d && (c == d <==> same')
    ensures c + a >= d + b && (c + a == d + b <==> same && same')
  {
  }

  lemma OneExact(z: Zone, src: Energy, x: (MeterCode, Value))
    requires z.Valid() && Inside(src, x)
    ensures ExactlyOnce(z, src, x)
  {
    TimesExact(z, src, x);
    ShareMore(x.1.kwh, Times(z, src, x, z.day(src.start), z.day(src.end)));
  }

  lemma NoneCrossesNext(z: Zone, s: seq<(MeterCode, Value)>, code: MeterCode)
    requires s != []
    ensures NoneCrosses(z, s, code) <==> NoneCrosses(z, s[1..], code) && (s[0].0 == code && s[0].1.kwh > 0.0 ==> !Crosses(z, s[0].1))
  {
    HeadTail(s);
  }

  /** For values of the period the cut never loses energy, and it keeps it exactly if no value of the
      code with energy crosses a midnight. */
  lemma SplitEnergyExact(z: Zone, src: Energy, code: MeterCode)
    requires z.Valid() && forall x :: x in Flat(src.data) ==> Inside(src, x)
    ensures Total(FlatBlocks(Split(z, src)), code) >= Total(Flat(src.data), code)
    ensures Total(FlatBlocks(Split(z, src)), code) == Total(Flat(src.data), code) <==> NoneCrosses(z, Flat(src.data), code)
  {
    SplitEnergyTimes(z, src, code, z.day(src.start), z.day(src.end));
    forall i | 0 <= i < |Flat(src.data)| ensures ExactlyOnce(z, src, Flat(src.data)[i]) {
      OneExact(z, src, Flat(src.data)[i]);
    }
    WeightedExact(z, src, Flat(src.data), code);
  }

  lemma OneFlat(code: MeterCode, v: Value)
    ensures Flat([CodeData(code, [v])]) == [(code, v)] && Total([(code, v)], code) == v.kwh
  {
    var data, x := [CodeData(code, [v])], (code, v);
    assert data[1..] == [] && [v][1..] == [] && [x][1..] == [];
    assert Tagged(code, [v]) == [x] + Tagged(code, [v][1..]);
    assert Flat(data) == Tagged(code, [v]) + Flat(data[1..]);
  }

  /** A case: a value over any midnight counts more than once. */
  lemma CrossingCountsTwice(z: Zone, d: int)
    requires z.Valid()
    ensures var m := z.midnight(d);
            var src := Energy(m - QUARTER, m + QUARTER, [CodeData(Con, [Value(m - QUARTER, m + QUARTER, 1, 1.0)])]);
            Total(Flat(src.data), Con) == 1.0 < Total(FlatBlocks(Split(z, src)), Con)
  {
    var m := z.midnight(d);
    MidnightCrossed(z, d, m - QUARTER, m + QUARTER);
    CrossingAdds(z, Energy(m - QUARTER, m + QUARTER, [CodeData(Con, [Value(m - QUARTER, m + QUARTER, 1, 1.0)])]), Con, Value(m - QUARTER, m + QUARTER, 1, 1.0));
  }

  lemma MidnightCrossed(z: Zone, d: int, from: int, to: int)
    requires z.Valid() && from == z.midnight(d) - QUARTER && z.midnight(d) < to
    ensures z.midnight(z.day(from) + 1) < to
  {
    DayIsLong(z, d - 1);
    DayIsUnique(z, from, d - 1);
  }

  lemma CrossingAdds(z: Zone, src: Energy, code: MeterCode, v: Value)
    requires z.Valid() && src.data == [CodeData(code, [v])] && Inside(src, (code, v)) && v.kwh > 0.0 && Crosses(z, v)
    ensures Total(Flat(src.data), code) == v.kwh < Total(FlatBlocks(Split(z, src)), code)
  {
    OneFlat(code, v);
    assert (code, v) in Flat(src.data);
    SplitEnergyExact(z, src, code);
  }
}
