/** The energy summary against the hourly report (store/summary_function.go): exactly when the two agree
    on the values and on the qualities of a day. */
module Summaries {
  import opened Calendar
  import opened Engine
  import opened Hourly
  import opened Seqs
  import Rows
  import StoreSpec
  import DayArrays

  // ----- EnergySummary -----

  /** The quality the summary takes from a line: a block counts if the array goes on beyond it. */
  function SummaryLevel(q: seq<int>, n: nat, width: nat): int
    requires 0 < width
    decreases n
  {
    if n < width then 1 else Join(if |q| > width then q[0] else 1, SummaryLevel(Tail(q, width), n - width, width))
  }

  function SummaryOf(c: Cells): Amounts {
    AmountsOf(c).(unused := 0.0, qcons := SummaryLevel(c.qcons, |c.cons|, 3), qprod := SummaryLevel(c.qprod, |c.prod|, 2))
  }

  function SummaryTotal(lines: seq<Line>): Amounts {
    if lines == [] then EMPTY else SummaryTotal(lines[..|lines| - 1]).Plus(SummaryOf(lines[|lines| - 1].cells))
  }

  /** The column from slot i on is still to be added. */
  predicate ColumnLeft(total: real, sum: real, s: seq<real>, width: nat, off: nat, i: nat)
    requires off < width && i <= |s|
  {
    sum + Column(s[i..], width, off) == total
  }

  predicate LevelLeft(total: int, level: int, q: seq<int>, n: nat, width: nat, i: nat)
    requires 0 < width && i <= n
  {
    Join(level, SummaryLevel(Rest(q, i), n - i, width)) == total
  }

  lemma NothingLeft(total: real, sum: real, s: seq<real>, width: nat, off: nat, i: nat)
    requires off < width && i <= |s| < i + width && ColumnLeft(total, sum, s, width, off, i)
    ensures sum == total
  {
  }

  lemma AllLeft(sum: real, s: seq<real>, width: nat, off: nat)
    requires off < width
    ensures ColumnLeft(sum + Column(s, width, off), sum, s, width, off, 0)
  {
    assert s[0..] == s;
  }

  lemma LevelAllLeft(level: int, q: seq<int>, n: nat, width: nat)
    requires 0 < width
    ensures LevelLeft(Join(level, SummaryLevel(q, n, width)), level, q, n, width, 0)
  {
    assert Rest(q, 0) == q;
  }

  lemma NoLevelLeft(total: int, level: int, q: seq<int>, n: nat, width: nat, i: nat)
    requires 0 < width && i <= n < i + width && LevelLeft(total, level, q, n, width, i)
    ensures level == total
  {
    JoinLaws(level, 0, 0);
  }

  method SummaryConsumers(sum: Amounts, s: seq<real>, q: seq<int>) returns (consumed: real, shared: real, distributed: real, level: int)
    ensures consumed == sum.consumed + Column(s, 3, 0) && shared == sum.shared + Column(s, 3, 1)
    ensures distributed == sum.distributed + Column(s, 3, 2) && level == Join(sum.qcons, SummaryLevel(q, |s|, 3))
  {
    consumed, shared, distributed, level := sum.consumed, sum.shared, sum.distributed, sum.qcons;
    ghost var c, h, d, l := consumed + Column(s, 3, 0), shared + Column(s, 3, 1), distributed + Column(s, 3, 2), Join(level, SummaryLevel(q, |s|, 3));
    AllLeft(consumed, s, 3, 0);
    AllLeft(shared, s, 3, 1);
    AllLeft(distributed, s, 3, 2);
    LevelAllLeft(level, q, |s|, 3);
    var cLen, i := |s| - |s| % 3, 0;
    ThirdsEnd(|s|);
    while i < cLen
      invariant 0 <= i <= cLen && i % 3 == 0
      invariant ColumnLeft(c, consumed, s, 3, 0, i) && ColumnLeft(h, shared, s, 3, 1, i) && ColumnLeft(d, distributed, s, 3, 2, i)
      invariant LevelLeft(l, level, q, |s|, 3, i)
    {
      NextFits(i, cLen, 3);
      ColumnStep(c, consumed, s, 3, 0, i);
      ColumnStep(h, shared, s, 3, 1, i);
      ColumnStep(d, distributed, s, 3, 2, i);
      var target := if |q| > i + 3 then q[i] else 1;
      LevelStep(l, level, q, |s|, 3, i, target);
      consumed, shared, distributed := consumed + s[i], shared + s[i + 1], distributed + s[i + 2];
      level := Join(level, target);
      i := i + 3;
    }
    NothingLeft(c, consumed, s, 3, 0, i);
    NothingLeft(h, shared, s, 3, 1, i);
    NothingLeft(d, distributed, s, 3, 2, i);
    NoLevelLeft(l, level, q, |s|, 3, i);
  }

  method SummaryProducers(sum: Amounts, s: seq<real>, q: seq<int>) returns (produced: real, level: int)
    ensures produced == sum.produced + Column(s, 2, 0) && level == Join(sum.qprod, SummaryLevel(q, |s|, 2))
  {
    produced, level := sum.produced, sum.qprod;
    ghost var p, l := produced + Column(s, 2, 0), Join(level, SummaryLevel(q, |s|, 2));
    AllLeft(produced, s, 2, 0);
    LevelAllLeft(level, q, |s|, 2);
    var pLen, i := |s| - |s| % 2, 0;
    PairsEnd(|s|);
    while i < pLen
      invariant 0 <= i <= pLen && i % 2 == 0
      invariant ColumnLeft(p, produced, s, 2, 0, i) && LevelLeft(l, level, q, |s|, 2, i)
    {
      NextFits(i, pLen, 2);
      ColumnStep(p, produced, s, 2, 0, i);
      var target := if |q| > i + 2 then q[i] else 1;
      LevelStep(l, level, q, |s|, 2, i, target);
      produced := produced + s[i];
      level := Join(level, target);
      i := i + 2;
    }
    NothingLeft(p, produced, s, 2, 0, i);
    NoLevelLeft(l, level, q, |s|, 2, i);
  }

  lemma ThirdsEnd(n: nat)
    ensures var m := n - n % 3; 0 <= m <= n < m + 3 && m % 3 == 0
  {
  }

  lemma PairsEnd(n: nat)
    ensures var m := n - n % 2; 0 <= m <= n < m + 2 && m % 2 == 0
  {
  }

  lemma NextFits(i: nat, n: nat, width: nat)
    requires (width == 2 || width == 3) && i < n && i % width == 0 && n % width == 0
    ensures i + width <= n && (i + width) % width == 0
  {
    NextBlock(i, width);
  }

  lemma ColumnStep(total: real, sum: real, s: seq<real>, width: nat, off: nat, i: nat)
    requires off < width && i + width <= |s| && ColumnLeft(total, sum, s, width, off, i)
    ensures ColumnLeft(total, sum + s[i + off], s, width, off, i + width)
  {
    assert s[i..][width..] == s[i + width..];
  }

  lemma LevelStep(total: int, level: int, q: seq<int>, n: nat, width: nat, i: nat, target: int)
    requires 0 < width && i + width <= n && target == (if |q| > i + width then q[i] else 1) && LevelLeft(total, level, q, n, width, i)
    ensures LevelLeft(total, Join(level, target), q, n, width, i + width)
  {
    RestNext(q, i, width);
    JoinLaws(level, target, SummaryLevel(Rest(q, i + width), n - i - width, width));
  }

  function Rest(q: seq<int>, i: nat): seq<int> {
    if i < |q| then q[i..] else []
  }

  lemma RestNext(q: seq<int>, i: nat, width: nat)
    requires 0 < width
    ensures |Rest(q, i)| > width <==> |q| > i + width
    ensures |q| > i + width ==> Rest(q, i)[0] == q[i]
    ensures Tail(Rest(q, i), width) == Rest(q, i + width)
  {
  }

  /** EnergySummary over all lines; it does not report what producers had left. */
  method Summary(lines: seq<Line>) returns (sum: Amounts)
    ensures sum == SummaryTotal(lines)
  {
    sum := EMPTY;
    for n := 0 to |lines|
      invariant sum == SummaryTotal(lines[..n])
    {
      assert lines[..n + 1][..n] == lines[..n];
      sum := AddSummary(sum, lines[n].cells);
    }
    assert lines[..|lines|] == lines;
  }

  method AddSummary(sum: Amounts, c: Cells) returns (r: Amounts)
    ensures r == sum.Plus(SummaryOf(c))
  {
    var consumed, shared, distributed, qcons := SummaryConsumers(sum, c.cons, c.qcons);
    var produced, qprod := SummaryProducers(sum, c.prod, c.qprod);
    r := Amounts(consumed, shared, distributed, produced, sum.unused, qcons, qprod);
  }

  // ----- the values it drops -----

  predicate SameValues(a: Amounts, b: Amounts) {
    a.consumed == b.consumed && a.shared == b.shared && a.distributed == b.distributed && a.produced == b.produced
  }

  /** The value at offset off of an unfinished last block. */
  function Cut(s: seq<real>, width: nat, off: nat): real
    requires off < width
    decreases |s|
  {
    if |s| >= width then Cut(s[width..], width, off) else if off < |s| then s[off] else 0.0
  }

  /** The values of the unfinished blocks of a line. */
  function Dropped(c: Cells): Amounts {
    NOTHING.(consumed := Cut(c.cons, 3, 0), shared := Cut(c.cons, 3, 1), distributed := Cut(c.cons, 3, 2), produced := Cut(c.prod, 2, 0))
  }

  function DroppedTotal(lines: seq<Line>): Amounts {
    if lines == [] then NOTHING else DroppedTotal(lines[..|lines| - 1]).Plus(Dropped(lines[|lines| - 1].cells))
  }

  lemma {:induction false} ColumnAndCut(s: seq<real>, width: nat, off: nat)
    requires (width == 2 || width == 3) && off < width
    ensures Column(Sized(s, Up(|s|, width)), width, off) == Column(s, width, off) + Cut(s, width, off)
    decreases |s|
  {
    var all := Sized(s, Up(|s|, width));
    if s != [] {
      var s' := Tail(s, width);
      assert all[width..] == Sized(s', Up(|s'|, width));
      ColumnAndCut(s', width, off);
      if |s| >= width {
        assert s[width..] == s';
      }
    }
  }

  /** What the summary shows and what it drops make up the rows of the hourly report. */
  lemma {:induction false} SummaryAndDropped(lines: seq<Line>, hourOf: int -> int)
    ensures SameValues(SummaryTotal(lines).Plus(DroppedTotal(lines)), Sum(Entries(lines, hourOf)))
  {
    if lines != [] {
      var init, l := lines[..|lines| - 1], lines[|lines| - 1];
      SummaryAndDropped(init, hourOf);
      InitLast(lines);
      EntriesNext(init, l, hourOf);
      SumNext(Entries(init, hourOf), EntryOf(l, hourOf));
      ColumnAndCut(l.cells.cons, 3, 0);
      ColumnAndCut(l.cells.cons, 3, 1);
      ColumnAndCut(l.cells.cons, 3, 2);
      ColumnAndCut(l.cells.prod, 2, 0);
    }
  }

  /** The summary has the values of the rows exactly if the unfinished blocks add up to nothing. */
  lemma SummaryValues(lines: seq<Line>, hourOf: int -> int)
    ensures SameValues(SummaryTotal(lines), Sum(Entries(lines, hourOf))) <==> SameValues(DroppedTotal(lines), NOTHING)
  {
    SummaryAndDropped(lines, hourOf);
  }

  ghost predicate NoNegative(c: Cells) {
    (forall i :: 0 <= i < |c.cons| ==> c.cons[i] >= 0.0) && (forall i :: 0 <= i < |c.prod| ==> c.prod[i] >= 0.0)
  }

  lemma DroppedSign(c: Cells)
    requires NoNegative(c)
    ensures var d := Dropped(c); d.consumed >= 0.0 && d.shared >= 0.0 && d.distributed >= 0.0 && d.produced >= 0.0
  {
    forall off | 0 <= off < 3 ensures Cut(c.cons, 3, off) >= 0.0 {
      CutSign(c.cons, 3, off);
    }
    CutSign(c.prod, 2, 0);
  }

  lemma {:induction false} CutSign(s: seq<real>, width: nat, off: nat)
    requires off < width && forall i :: 0 <= i < |s| ==> s[i] >= 0.0
    ensures Cut(s, width, off) >= 0.0
    decreases |s|
  {
    if |s| >= width {
      CutSign(s[width..], width, off);
    }
  }

  predicate NothingIn(lines: seq<Line>, i: nat)
    requires i < |lines|
  {
    SameValues(Dropped(lines[i].cells), NOTHING)
  }

  /** Without negative values: exactly if no unfinished block of any row holds a value. */
  lemma {:induction false} NothingDropped(lines: seq<Line>)
    requires forall i :: 0 <= i < |lines| ==> NoNegative(lines[i].cells)
    ensures SameValues(DroppedTotal(lines), NOTHING) <==> forall i :: 0 <= i < |lines| ==> NothingIn(lines, i)
    ensures var d := DroppedTotal(lines); d.consumed >= 0.0 && d.shared >= 0.0 && d.distributed >= 0.0 && d.produced >= 0.0
  {
    if lines != [] {
      var n := |lines| - 1;
      var init := lines[..n];
      NothingDropped(init);
      DroppedSign(lines[n].cells);
      assert forall i :: 0 <= i < n ==> (NothingIn(lines, i) <==> NothingIn(init, i));
      var d, e := DroppedTotal(init), Dropped(lines[n].cells);
      assert SameValues(d.Plus(e), NOTHING) <==> SameValues(d, NOTHING) && SameValues(e, NOTHING);
      assert SameValues(e, NOTHING) <==> NothingIn(lines, n);
    }
  }

  function CellsOf(r: Rows.Row): Cells {
    Cells(r.cons, r.prod, r.qcons, r.qprod)
  }

  /** A case: the only consumer of a community, of whom only the consumption is stored. The hour shows
      it, the summary does not. */
  lemma SummaryDropsValue(z: Zone, db: StoreSpec.Db, point: string, v: Rows.Value, end: int, time: int, hourOf: int -> int)
    requires db.lines == map[] && db.meta.Keys == {point} && db.meta[point].dir == Rows.Consumer && db.meta[point].idx == 0
    ensures var b := StoreSpec.Block(point, Rows.Energy(v.from, end, [Rows.CodeData(Rows.Con, [v])]), None);
            var lines, id := StoreSpec.StoreBlock(z, db, b).lines, z.Row(v.from);
            && id in lines && Fitting(CellsOf(lines[id]), 3, 0)
            && (var rows := [Line(time, CellsOf(lines[id]))]; Sum(Entries(rows, hourOf)).consumed == v.kwh && SummaryTotal(rows).consumed == 0.0)
  {
    DayArrays.OneValueRow(z, db, point, v, end);
    assert Fitting(Cells([v.kwh], [], [v.quality], [0]), 3, 0);
    OneRowDrops(Line(time, Cells([v.kwh], [], [v.quality], [0])), hourOf);
  }

  lemma OneRowDrops(l: Line, hourOf: int -> int)
    requires |l.cells.cons| == 1
    ensures Sum(Entries([l], hourOf)).consumed == l.cells.cons[0] && SummaryTotal([l]).consumed == 0.0
  {
    assert [l][..0] == [];
    assert SummaryTotal([l]) == SummaryTotal([l][..0]).Plus(SummaryOf(l.cells));
    assert DroppedTotal([l]) == DroppedTotal([l][..0]).Plus(Dropped(l.cells));
    SummaryAndDropped([l], hourOf);
  }

  // ----- the qualities it does not see -----

  function JoinAll(s: seq<int>): int {
    if s == [] then 1 else Join(s[0], JoinAll(s[1..]))
  }

  lemma {:induction false} JoinAllConcat(a: seq<int>, b: seq<int>)
    ensures JoinAll(a + b) == Join(JoinAll(a), JoinAll(b))
  {
    if a == [] {
      assert a + b == b;
      JoinLaws(JoinAll(b), 1, 1);
    } else {
      TailOfConcat(a, b);
      JoinAllConcat(a[1..], b);
      JoinLaws(a[0], JoinAll(a[1..]), JoinAll(b));
    }
  }

  /** A report starts at L0 and shows the highest level from L2 on. */
  lemma {:induction false} JoinAllIs(s: seq<int>)
    ensures var r := Join(0, JoinAll(s)); r >= 0 && r != 1 && (forall x :: x in s && x >= 2 ==> x <= r) && (r > 0 ==> r in s)
  {
    if s != [] {
      HeadTail(s);
      JoinAllIs(s[1..]);
    }
  }

  /** More levels change the report exactly if one of them is higher than all before. */
  lemma JoinMore(a: seq<int>, b: seq<int>)
    ensures Join(0, Join(JoinAll(a), JoinAll(b))) == Join(0, JoinAll(a)) <==> forall h :: h in b && h >= 2 ==> exists x :: x in a && x >= h
  {
    JoinAllIs(a);
    JoinAllIs(b);
    JoinAllIs(a + b);
    JoinAllConcat(a, b);
    var r := Join(0, JoinAll(a));
    if forall h :: h in b && h >= 2 ==> exists x :: x in a && x >= h {
      forall h | h in b && h >= 2 ensures h <= r {
        var x :| x in a && x >= h;
      }
    }
  }

  /** A block of the width starts at slot i. */
  predicate BlockStart(i: nat, width: nat)
    requires 0 < width
  {
    i == 0 || (width <= i && BlockStart(i - width, width))
  }

  /** The block at slot i is one the summary looks at: it is whole, and the quality array goes on after it. */
  predicate ShownAt(q: seq<int>, n: nat, width: nat, i: nat)
    requires 0 < width
  {
    BlockStart(i, width) && i + width <= n && i + width < |q|
  }

  /** A block of the line that it does not look at. */
  predicate HiddenAt(q: seq<int>, n: nat, width: nat, i: nat)
    requires 0 < width
  {
    BlockStart(i, width) && i < n && !ShownAt(q, n, width, i)
  }

  function Shown(q: seq<int>, n: nat, width: nat): seq<int>
    requires 0 < width
    decreases n
  {
    if n < width then [] else (if |q| > width then [q[0]] else []) + Shown(Tail(q, width), n - width, width)
  }

  function Hidden(q: seq<int>, n: nat, width: nat): seq<int>
    requires 0 < width
    decreases n
  {
    if n == 0 then []
    else (if n >= width && |q| > width then [] else [LevelAt(q, 0)]) + if n <= width then [] else Hidden(Tail(q, width), n - width, width)
  }

  lemma {:induction false} ShownIs(q: seq<int>, n: nat, width: nat)
    requires width == 2 || width == 3
    ensures SummaryLevel(q, n, width) == JoinAll(Shown(q, n, width))
    decreases n
  {
    if n >= width {
      var rest := Shown(Tail(q, width), n - width, width);
      ShownIs(Tail(q, width), n - width, width);
      if |q| > width {
        TailOfConcat([q[0]], rest);
        assert [q[0]][1..] + rest == rest;
      } else {
        assert [] + rest == rest;
        JoinLaws(JoinAll(rest), 1, 1);
      }
    }
  }

  /** The quality of a line in the hourly report is what the summary sees joined with what it does not. */
  lemma {:induction false} LevelIsBoth(q: seq<int>, n: nat, width: nat)
    requires width == 2 || width == 3
    ensures Level(SizedLevels(q, Up(n, width)), width) == Join(JoinAll(Shown(q, n, width)), JoinAll(Hidden(q, n, width)))
    decreases n
  {
    if n > 0 {
      var n', q' := if width < n then n - width else 0, Tail(q, width);
      var all := SizedLevels(q, Up(n, width));
      assert all[width..] == SizedLevels(q', Up(n', width)) && all[0] == LevelAt(q, 0);
      LevelIsBoth(q', n', width);
      BothNext(q, n, width, Shown(q', n', width), Hidden(q', n', width));
    }
  }

  lemma BothNext(q: seq<int>, n: nat, width: nat, shown: seq<int>, hidden: seq<int>)
    requires (width == 2 || width == 3) && n > 0
    requires var n' := if width < n then n - width else 0; shown == Shown(Tail(q, width), n', width) && hidden == Hidden(Tail(q, width), n', width)
    ensures Join(JoinAll(Shown(q, n, width)), JoinAll(Hidden(q, n, width))) == Join(LevelAt(q, 0), Join(JoinAll(shown), JoinAll(hidden)))
  {
    var x := LevelAt(q, 0);
    assert [] + shown == shown && [] + hidden == hidden;
    assert ([x] + shown)[1..] == shown && ([x] + hidden)[1..] == hidden;
    JoinLaws(x, JoinAll(shown), JoinAll(hidden));
    JoinLaws(JoinAll(shown), x, JoinAll(hidden));
  }

  lemma {:induction false} ShownFound(q: seq<int>, n: nat, width: nat, x: int) returns (i: nat)
    requires (width == 2 || width == 3) && x in Shown(q, n, width)
    ensures ShownAt(q, n, width, i) && LevelAt(q, i) == x
    decreases n
  {
    var q', n' := Tail(q, width), if width < n then n - width else 0;
    if x in Shown(q', n', width) {
      i := ShownFound(q', n', width, x);
      BlockLater(q, n, width, i);
      i := i + width;
    } else {
      i := 0;
    }
  }

  lemma ShownLater(q: seq<int>, n: nat, width: nat, x: int)
    requires 0 < width < n && x in Shown(Tail(q, width), n - width, width)
    ensures x in Shown(q, n, width)
  {
  }

  lemma {:induction false} ShownHolds(q: seq<int>, n: nat, width: nat, i: nat)
    requires (width == 2 || width == 3) && ShownAt(q, n, width, i)
    ensures LevelAt(q, i) in Shown(q, n, width)
    decreases n
  {
    if i > 0 {
      LaterBlock(q, n, width, i);
      ShownHolds(Tail(q, width), n - width, width, i - width);
      ShownLater(q, n, width, LevelAt(q, i));
    } else {
      assert Shown(q, n, width)[0] == LevelAt(q, 0);
    }
  }

  /** The blocks after the first are those of the rest. */
  lemma BlockLater(q: seq<int>, n: nat, width: nat, i: nat)
    requires (width == 2 || width == 3) && BlockStart(i, width)
    ensures var n' := if width < n then n - width else 0;
            && LevelAt(q, i + width) == LevelAt(Tail(q, width), i)
            && (ShownAt(q, n, width, i + width) <==> ShownAt(Tail(q, width), n', width, i))
            && (HiddenAt(q, n, width, i + width) <==> HiddenAt(Tail(q, width), n', width, i))
  {
  }

  lemma LaterBlock(q: seq<int>, n: nat, width: nat, i: nat)
    requires (width == 2 || width == 3) && 0 < i && BlockStart(i, width) && i < n
    ensures width < n && LevelAt(q, i) == LevelAt(Tail(q, width), i - width)
    ensures ShownAt(q, n, width, i) ==> ShownAt(Tail(q, width), n - width, width, i - width)
    ensures HiddenAt(q, n, width, i) ==> HiddenAt(Tail(q, width), n - width, width, i - width)
  {
    BlockLater(q, n, width, i - width);
  }

  lemma {:induction false} HiddenFound(q: seq<int>, n: nat, width: nat, x: int) returns (i: nat)
    requires (width == 2 || width == 3) && x in Hidden(q, n, width)
    ensures HiddenAt(q, n, width, i) && LevelAt(q, i) == x
    decreases n
  {
    var q', n' := Tail(q, width), if width < n then n - width else 0;
    if x in Hidden(q', n', width) {
      i := HiddenFound(q', n', width, x);
      BlockLater(q, n, width, i);
      i := i + width;
    } else {
      i := 0;
    }
  }

  lemma HiddenLater(q: seq<int>, n: nat, width: nat, x: int)
    requires 0 < width < n && x in Hidden(Tail(q, width), n - width, width)
    ensures x in Hidden(q, n, width)
  {
  }

  lemma {:induction false} HiddenHolds(q: seq<int>, n: nat, width: nat, i: nat)
    requires (width == 2 || width == 3) && HiddenAt(q, n, width, i)
    ensures LevelAt(q, i) in Hidden(q, n, width)
    decreases n
  {
    if i > 0 {
      LaterBlock(q, n, width, i);
      HiddenHolds(Tail(q, width), n - width, width, i - width);
      HiddenLater(q, n, width, LevelAt(q, i));
    } else {
      assert Hidden(q, n, width)[0] == LevelAt(q, 0);
    }
  }

  // ----- over the lines of a report -----

  function Width(consumer: bool): nat {
    if consumer then 3 else 2
  }

  function ReportLevel(a: Amounts, consumer: bool): int {
    if consumer then a.qcons else a.qprod
  }

  function ShownIn(lines: seq<Line>, consumer: bool): seq<int> {
    if lines == [] then []
    else
      var c := lines[|lines| - 1].cells;
      ShownIn(lines[..|lines| - 1], consumer) + Shown(Qualities(c, consumer), Slots(c, consumer), Width(consumer))
  }

  function HiddenIn(lines: seq<Line>, consumer: bool): seq<int> {
    if lines == [] then []
    else
      var c := lines[|lines| - 1].cells;
      HiddenIn(lines[..|lines| - 1], consumer) + Hidden(Qualities(c, consumer), Slots(c, consumer), Width(consumer))
  }

  lemma {:induction false} SummarySees(lines: seq<Line>, consumer: bool)
    ensures ReportLevel(SummaryTotal(lines), consumer) == Join(0, JoinAll(ShownIn(lines, consumer)))
  {
    if lines != [] {
      var init, c := lines[..|lines| - 1], lines[|lines| - 1].cells;
      var shown := Shown(Qualities(c, consumer), Slots(c, consumer), Width(consumer));
      SummarySees(init, consumer);
      ShownIs(Qualities(c, consumer), Slots(c, consumer), Width(consumer));
      JoinAllConcat(ShownIn(init, consumer), shown);
      JoinLaws(0, JoinAll(ShownIn(init, consumer)), JoinAll(shown));
    }
  }

  lemma {:induction false} ReportSees(lines: seq<Line>, hourOf: int -> int, consumer: bool)
    ensures ReportLevel(Sum(Entries(lines, hourOf)), consumer) == Join(0, Join(JoinAll(ShownIn(lines, consumer)), JoinAll(HiddenIn(lines, consumer))))
  {
    if lines != [] {
      var init, l := lines[..|lines| - 1], lines[|lines| - 1];
      var q, n, width := Qualities(l.cells, consumer), Slots(l.cells, consumer), Width(consumer);
      ReportSees(init, hourOf, consumer);
      InitLast(lines);
      EntriesNext(init, l, hourOf);
      SumNext(Entries(init, hourOf), EntryOf(l, hourOf));
      EvenLevels(Filled(l.cells).qcons);
      EvenLevels(Filled(l.cells).qprod);
      LevelIsBoth(q, n, width);
      JoinAllConcat(ShownIn(init, consumer), Shown(q, n, width));
      JoinAllConcat(HiddenIn(init, consumer), Hidden(q, n, width));
      FiveJoins(JoinAll(ShownIn(init, consumer)), JoinAll(HiddenIn(init, consumer)), JoinAll(Shown(q, n, width)), JoinAll(Hidden(q, n, width)));
    }
  }

  lemma FiveJoins(a: int, b: int, c: int, d: int)
    ensures Join(Join(0, Join(a, b)), Join(c, d)) == Join(0, Join(Join(a, c), Join(b, d)))
  {
    FourJoins(a, b, c, d);
    JoinLaws(0, Join(a, b), Join(c, d));
  }

  /** The block at slot k of line i has the level x, and the summary looks at it. */
  predicate Seen(lines: seq<Line>, consumer: bool, i: nat, k: nat, x: int) {
    i < |lines| && ShownAt(Qualities(lines[i].cells, consumer), Slots(lines[i].cells, consumer), Width(consumer), k)
    && LevelAt(Qualities(lines[i].cells, consumer), k) == x
  }

  predicate Unseen(lines: seq<Line>, consumer: bool, i: nat, k: nat, x: int) {
    i < |lines| && HiddenAt(Qualities(lines[i].cells, consumer), Slots(lines[i].cells, consumer), Width(consumer), k)
    && LevelAt(Qualities(lines[i].cells, consumer), k) == x
  }

  lemma {:induction false} SeenFound(lines: seq<Line>, consumer: bool, x: int) returns (i: nat, k: nat)
    requires x in ShownIn(lines, consumer)
    ensures Seen(lines, consumer, i, k, x)
  {
    var n := |lines| - 1;
    if x in ShownIn(lines[..n], consumer) {
      i, k := SeenFound(lines[..n], consumer, x);
    } else {
      var c := lines[n].cells;
      i := n;
      k := ShownFound(Qualities(c, consumer), Slots(c, consumer), Width(consumer), x);
    }
  }

  lemma {:induction false} SeenHolds(lines: seq<Line>, consumer: bool, i: nat, k: nat, x: int)
    requires Seen(lines, consumer, i, k, x)
    ensures x in ShownIn(lines, consumer)
  {
    var n := |lines| - 1;
    if i < n {
      SeenHolds(lines[..n], consumer, i, k, x);
    } else {
      ShownHolds(Qualities(lines[n].cells, consumer), Slots(lines[n].cells, consumer), Width(consumer), k);
    }
  }

  lemma {:induction false} UnseenFound(lines: seq<Line>, consumer: bool, x: int) returns (i: nat, k: nat)
    requires x in HiddenIn(lines, consumer)
    ensures Unseen(lines, consumer, i, k, x)
  {
    var n := |lines| - 1;
    if x in HiddenIn(lines[..n], consumer) {
      i, k := UnseenFound(lines[..n], consumer, x);
    } else {
      var c := lines[n].cells;
      i := n;
      k := HiddenFound(Qualities(c, consumer), Slots(c, consumer), Width(consumer), x);
    }
  }

  lemma {:induction false} UnseenHolds(lines: seq<Line>, consumer: bool, i: nat, k: nat, x: int)
    requires Unseen(lines, consumer, i, k, x)
    ensures x in HiddenIn(lines, consumer)
  {
    var n := |lines| - 1;
    if i < n {
      UnseenHolds(lines[..n], consumer, i, k, x);
    } else {
      HiddenHolds(Qualities(lines[n].cells, consumer), Slots(lines[n].cells, consumer), Width(consumer), k);
    }
  }

  /** Every level from L2 on that the summary does not look at is matched by one it looks at. */
  ghost predicate Outshone(lines: seq<Line>, consumer: bool) {
    forall i: nat, k: nat, h :: Unseen(lines, consumer, i, k, h) && h >= 2 ==> SeenFrom(lines, consumer, h)
  }

  ghost predicate SeenFrom(lines: seq<Line>, consumer: bool, h: int) {
    exists j: nat, m: nat, x :: Seen(lines, consumer, j, m, x) && x >= h
  }

  /** The summary has the quality of the rows, as the hourly report has it, exactly under that condition. */
  lemma SummaryQuality(lines: seq<Line>, hourOf: int -> int, consumer: bool)
    ensures ReportLevel(SummaryTotal(lines), consumer) == ReportLevel(Sum(Entries(lines, hourOf)), consumer) <==> Outshone(lines, consumer)
  {
    var a, b := ShownIn(lines, consumer), HiddenIn(lines, consumer);
    SummarySees(lines, consumer);
    ReportSees(lines, hourOf, consumer);
    JoinMore(a, b);
    if Outshone(lines, consumer) {
      forall h | h in b && h >= 2 ensures exists x :: x in a && x >= h {
        var i, k := UnseenFound(lines, consumer, h);
        assert SeenFrom(lines, consumer, h);
        var j: nat, m: nat, x :| Seen(lines, consumer, j, m, x) && x >= h;
        SeenHolds(lines, consumer, j, m, x);
      }
    }
    if forall h :: h in b && h >= 2 ==> exists x :: x in a && x >= h {
      forall i: nat, k: nat, h | Unseen(lines, consumer, i, k, h) && h >= 2 ensures SeenFrom(lines, consumer, h) {
        UnseenHolds(lines, consumer, i, k, h);
        var x :| x in a && x >= h;
        var j, m := SeenFound(lines, consumer, x);
      }
    }
  }

  /** A case: the only consumer's value is L3, which the hour shows and the summary does not. */
  lemma SummaryHidesQuality()
    ensures var c := Cells([1.0, 0.0, 0.0], [], [3, 0, 0], []);
            EMPTY.Plus(RowAmounts(c)).qcons == 3 && EMPTY.Plus(SummaryOf(c)).qcons == 0
  {
    var c := Cells([1.0, 0.0, 0.0], [], [3, 0, 0], []);
    EvenLevels(Filled(c).qcons);
    LevelIsBoth(c.qcons, 3, 3);
    assert Shown(c.qcons, 3, 3) == [] && Hidden(c.qcons, 3, 3) == [3];
    assert JoinAll([3]) == Join(3, JoinAll([3][1..]));
    assert SummaryLevel(c.qcons, 3, 3) == Join(1, SummaryLevel([], 0, 3)) == 1;
  }

  /** The other way round: a new row has more producer qualities than values, so the last one is seen. */
  lemma FreshRowShowsQuality()
    ensures var c := Cells([], [1.0, 0.0], [], [3, 0, 0]);
            EMPTY.Plus(RowAmounts(c)).qprod == 3 && EMPTY.Plus(SummaryOf(c)).qprod == 3
  {
    var c := Cells([], [1.0, 0.0], [], [3, 0, 0]);
    EvenLevels(Filled(c).qprod);
    LevelIsBoth(c.qprod, 2, 2);
    ShownIs(c.qprod, 2, 2);
    assert Shown(c.qprod, 2, 2) == [3] + Shown([0], 0, 2) == [3] && Hidden(c.qprod, 2, 2) == [];
    assert JoinAll([3]) == Join(3, JoinAll([3][1..]));
  }

  // ----- both reports -----

  /** The hourly report and the summary of the same rows. They have the same values exactly if the
      unfinished blocks add up to nothing, and the same quality exactly if what the summary does not look
      at is outshone. */
  method DayReports(exists_: int -> bool, rows: seq<Line>, countCons: nat, countProd: nat, start: int, hourOf: int -> int)
    returns (report: map<int, Amounts>, summary: Amounts)
    requires Ascending(rows) && AllFitting(rows, countCons * 3, countProd * 2) && Clockwork(hourOf)
    ensures forall h :: ResultOf(report, h) == HourSum(Entries(rows, hourOf), h)
    ensures SameValues(summary, ReportSum(report, 24)) <==> SameValues(DroppedTotal(rows), NOTHING)
    ensures summary.qcons == ReportSum(report, 24).qcons <==> Outshone(rows, true)
    ensures summary.qprod == ReportSum(report, 24).qprod <==> Outshone(rows, false)
  {
    report := HourlyReport(exists_, rows, countCons, countProd, start, hourOf);
    summary := Summary(rows);
    SummaryValues(rows, hourOf);
    SummaryQuality(rows, hourOf, true);
    SummaryQuality(rows, hourOf, false);
  }
}
