/** splitRuns: the messages of one community cut into runs that may be stored day by day
    (mqttclient/importRuns.go). */
module Runs {
  import opened Rows
  import opened Seqs

  /** A CR_MSG: one metering point of one community with its periods. */
  datatype Message = Message(ecId: string, point: string, energy: seq<Energy>)

  /** single: one message whose own periods overlap; it is imported on its own. */
  datatype Run = Run(idx: seq<nat>, single: bool)

  /** Start inclusive, end exclusive. */
  predicate Overlap(s1: int, e1: int, s2: int, e2: int) {
    s1 < e2 && s2 < e1
  }

  ghost predicate SelfOverlap(energy: seq<Energy>) {
    exists i, j :: 0 <= i < j < |energy| && Overlap(energy[i].start, energy[i].end, energy[j].start, energy[j].end)
  }

  ghost predicate Clash(a: seq<Energy>, b: seq<Energy>) {
    exists i, j :: 0 <= i < |a| && 0 <= j < |b| && Overlap(a[i].start, a[i].end, b[j].start, b[j].end)
  }

  method SelfOverlaps(energy: seq<Energy>) returns (r: bool)
    ensures r == SelfOverlap(energy)
  {
    for i := 0 to |energy|
      invariant forall a, b :: 0 <= a < i && a < b < |energy| ==> !Overlap(energy[a].start, energy[a].end, energy[b].start, energy[b].end)
    {
      for j := i + 1 to |energy|
        invariant forall b :: i < b < j ==> !Overlap(energy[i].start, energy[i].end, energy[b].start, energy[b].end)
      {
        if energy[j].start < energy[i].end && energy[i].start < energy[j].end {
          assert Overlap(energy[i].start, energy[i].end, energy[j].start, energy[j].end);
          return true;
        }
      }
    }
    return false;
  }

  method OverlapsAny(energy: seq<Energy>, periods: seq<(int, int)>) returns (r: bool)
    ensures r == exists i, j :: 0 <= i < |energy| && 0 <= j < |periods| && Overlap(energy[i].start, energy[i].end, periods[j].0, periods[j].1)
  {
    for i := 0 to |energy|
      invariant forall a, b :: 0 <= a < i && 0 <= b < |periods| ==> !Overlap(energy[a].start, energy[a].end, periods[b].0, periods[b].1)
    {
      for j := 0 to |periods|
        invariant forall b :: 0 <= b < j ==> !Overlap(energy[i].start, energy[i].end, periods[b].0, periods[b].1)
      {
        if energy[i].start < periods[j].1 && periods[j].0 < energy[i].end {
          assert Overlap(energy[i].start, energy[i].end, periods[j].0, periods[j].1);
          return true;
        }
      }
    }
    return false;
  }

  function Flatten(runs: seq<Run>): seq<nat> {
    if runs == [] then [] else runs[0].idx + Flatten(runs[1..])
  }

  lemma {:induction false} FlattenSnoc(runs: seq<Run>, r: Run)
    ensures Flatten(runs + [r]) == Flatten(runs) + r.idx
  {
    if runs == [] {
      assert [r][1..] == [];
    } else {
      assert (runs + [r])[1..] == runs[1..] + [r];
      FlattenSnoc(runs[1..], r);
    }
  }

  /** The periods of the messages of one metering point, in order. */
  function PeriodsOf(msgs: seq<Message>, idx: seq<nat>, point: string): seq<(int, int)>
    requires InRange(msgs, idx)
  {
    if idx == [] then []
    else
      var i := idx[|idx| - 1];
      PeriodsOf(msgs, idx[..|idx| - 1], point) + if msgs[i].point == point then Spans(msgs[i].energy) else []
  }

  function Spans(energy: seq<Energy>): seq<(int, int)> {
    seq(|energy|, i requires 0 <= i < |energy| => (energy[i].start, energy[i].end))
  }

  predicate InRange(msgs: seq<Message>, idx: seq<nat>) {
    forall k :: 0 <= k < |idx| ==> idx[k] < |msgs|
  }

  /** Message m overlaps a message of its metering point among idx. */
  ghost predicate ClashIn(msgs: seq<Message>, idx: seq<nat>, m: Message)
    requires InRange(msgs, idx)
  {
    exists k :: 0 <= k < |idx| && msgs[idx[k]].point == m.point && Clash(m.energy, msgs[idx[k]].energy)
  }

  /** No message overlaps itself or an earlier one of its metering point. */
  ghost predicate Harmless(msgs: seq<Message>, idx: seq<nat>)
    requires InRange(msgs, idx)
  {
    forall k :: 0 <= k < |idx| ==> !SelfOverlap(msgs[idx[k]].energy) && !ClashIn(msgs, idx[..k], msgs[idx[k]])
  }

  ghost predicate GoodRun(msgs: seq<Message>, r: Run) {
    && InRange(msgs, r.idx)
    && r.idx != []
    && if r.single then |r.idx| == 1 && SelfOverlap(msgs[r.idx[0]].energy) else Harmless(msgs, r.idx)
  }

  lemma {:induction false} PeriodsClash(msgs: seq<Message>, idx: seq<nat>, m: Message)
    requires InRange(msgs, idx)
    ensures ClashIn(msgs, idx, m) <==> Meets(m.energy, PeriodsOf(msgs, idx, m.point))
    decreases |idx|
  {
    if idx != [] {
      var n := |idx| - 1;
      var init, last := idx[..n], msgs[idx[n]];
      PeriodsClash(msgs, init, m);
      ClashSnoc(msgs, idx, m);
      var ps := PeriodsOf(msgs, init, m.point);
      var all := PeriodsOf(msgs, idx, m.point);
      if last.point == m.point {
        assert all == ps + Spans(last.energy);
        PeriodsSnoc(m.energy, ps, last.energy);
      } else {
        assert all == ps;
      }
    }
  }

  lemma ClashSnoc(msgs: seq<Message>, idx: seq<nat>, m: Message)
    requires InRange(msgs, idx) && idx != []
    ensures var n := |idx| - 1;
            ClashIn(msgs, idx, m) <==> ClashIn(msgs, idx[..n], m) || (msgs[idx[n]].point == m.point && Clash(m.energy, msgs[idx[n]].energy))
  {
    var n := |idx| - 1;
    assert forall k :: 0 <= k < n ==> idx[..n][k] == idx[k];
  }

  ghost predicate Meets(energy: seq<Energy>, ps: seq<(int, int)>) {
    exists i, j :: 0 <= i < |energy| && 0 <= j < |ps| && Overlap(energy[i].start, energy[i].end, ps[j].0, ps[j].1)
  }

  lemma PeriodsSnoc(energy: seq<Energy>, ps: seq<(int, int)>, more: seq<Energy>)
    ensures Meets(energy, ps + Spans(more)) <==> Meets(energy, ps) || Clash(energy, more)
  {
    var all := ps + Spans(more);
    if Clash(energy, more) {
      var i, j :| 0 <= i < |energy| && 0 <= j < |more| && Overlap(energy[i].start, energy[i].end, more[j].start, more[j].end);
      assert all[|ps| + j] == (more[j].start, more[j].end);
    }
    if Meets(energy, ps) {
      var i, j :| 0 <= i < |energy| && 0 <= j < |ps| && Overlap(energy[i].start, energy[i].end, ps[j].0, ps[j].1);
      assert all[j] == ps[j];
    }
    if Meets(energy, all) {
      var i, j :| 0 <= i < |energy| && 0 <= j < |all| && Overlap(energy[i].start, energy[i].end, all[j].0, all[j].1);
      if j < |ps| {
        assert all[j] == ps[j];
      } else {
        assert all[j] == (more[j - |ps|].start, more[j - |ps|].end);
      }
    }
  }

  /** The periods kept per metering point are those of the messages of the current run. */
  ghost predicate Kept(msgs: seq<Message>, cur: seq<nat>, periods: map<string, seq<(int, int)>>) {
    && InRange(msgs, cur)
    && forall p :: PeriodsOf(msgs, cur, p) == if p in periods then periods[p] else []
  }

  lemma KeptNext(msgs: seq<Message>, cur: seq<nat>, periods: map<string, seq<(int, int)>>, i: nat)
    requires Kept(msgs, cur, periods) && i < |msgs|
    ensures var p := msgs[i].point;
            Kept(msgs, cur + [i], periods[p := (if p in periods then periods[p] else []) + Spans(msgs[i].energy)])
  {
    var next := cur + [i];
    assert next[..|next| - 1] == cur;
  }

  lemma HarmlessNext(msgs: seq<Message>, cur: seq<nat>, i: nat)
    requires InRange(msgs, cur) && i < |msgs| && Harmless(msgs, cur)
    requires !SelfOverlap(msgs[i].energy) && !ClashIn(msgs, cur, msgs[i])
    ensures InRange(msgs, cur + [i]) && Harmless(msgs, cur + [i])
  {
    var next := cur + [i];
    forall k | 0 <= k < |next| ensures !SelfOverlap(msgs[next[k]].energy) && !ClashIn(msgs, next[..k], msgs[next[k]]) {
      if k < |cur| {
        assert next[..k] == cur[..k];
      } else {
        assert next[..k] == cur;
      }
    }
  }

  /** The message starts a new run rightly: nothing comes before, or a message on its own, or it overlaps
      the run before. */
  ghost predicate StartsRun(msgs: seq<Message>, runs: seq<Run>, cur: seq<nat>) {
    runs == [] || (
      var last := runs[|runs| - 1];
      last.single || (InRange(msgs, last.idx) && InRange(msgs, cur) && cur != [] && ClashIn(msgs, last.idx, msgs[cur[0]])))
  }

  /** No run ends before it must. */
  ghost predicate Longest(msgs: seq<Message>, runs: seq<Run>) {
    forall k :: 0 <= k < |runs| && !runs[k].single ==> StartsRun(msgs, runs[..k], runs[k].idx)
  }

  lemma LongestNext(msgs: seq<Message>, runs: seq<Run>, r: Run)
    requires Longest(msgs, runs) && (r.single || StartsRun(msgs, runs, r.idx))
    ensures Longest(msgs, runs + [r])
  {
    var more := runs + [r];
    forall k | 0 <= k < |more| && !more[k].single ensures StartsRun(msgs, more[..k], more[k].idx) {
      if k < |runs| {
        assert more[..k] == runs[..k];
      } else {
        assert more[..k] == runs;
      }
    }
  }

  /** Every index once and in order; a run holds no two overlapping periods of one metering point,
      or is a single message that overlaps itself; and a run goes on as long as it may. */
  method SplitRuns(msgs: seq<Message>, idx: seq<nat>) returns (runs: seq<Run>)
    requires InRange(msgs, idx)
    ensures Flatten(runs) == idx
    ensures forall r :: r in runs ==> GoodRun(msgs, r)
    ensures Longest(msgs, runs)
  {
    runs := [];
    var cur: seq<nat> := [];
    var periods: map<string, seq<(int, int)>> := map[];
    for n := 0 to |idx|
      invariant Flatten(runs) + cur == idx[..n]
      invariant forall r :: r in runs ==> GoodRun(msgs, r)
      invariant Kept(msgs, cur, periods) && Harmless(msgs, cur)
      invariant Longest(msgs, runs) && StartsRun(msgs, runs, cur)
    {
      var i := idx[n];
      assert idx[..n + 1] == idx[..n] + [i];
      var m := msgs[i];
      var own := SelfOverlaps(m.energy);
      if own {
        runs := Alone(msgs, runs, cur, i);
        cur, periods := [], map[];
      } else {
        runs, cur, periods := Join(msgs, runs, cur, periods, i);
      }
    }
    runs := Flush(msgs, runs, cur);
    assert idx[..|idx|] == idx;
  }

  /** The message overlaps the run it would join. */
  method OverlapsRun(ghost msgs: seq<Message>, ghost cur: seq<nat>, m: Message, ps: seq<(int, int)>) returns (hit: bool)
    requires InRange(msgs, cur) && ps == PeriodsOf(msgs, cur, m.point)
    ensures hit <==> ClashIn(msgs, cur, m)
  {
    hit := OverlapsAny(m.energy, ps);
    assert hit <==> Meets(m.energy, ps);
    PeriodsClash(msgs, cur, m);
  }

  /** A message joins the current run, or the next one if it overlaps it. */
  method Join(msgs: seq<Message>, runs: seq<Run>, cur: seq<nat>, periods: map<string, seq<(int, int)>>, i: nat)
    returns (runs': seq<Run>, cur': seq<nat>, periods': map<string, seq<(int, int)>>)
    requires i < |msgs| && !SelfOverlap(msgs[i].energy)
    requires forall r :: r in runs ==> GoodRun(msgs, r)
    requires Kept(msgs, cur, periods) && Harmless(msgs, cur)
    requires Longest(msgs, runs) && StartsRun(msgs, runs, cur)
    ensures Flatten(runs') + cur' == Flatten(runs) + cur + [i]
    ensures forall r :: r in runs' ==> GoodRun(msgs, r)
    ensures Kept(msgs, cur', periods') && Harmless(msgs, cur')
    ensures Longest(msgs, runs') && StartsRun(msgs, runs', cur')
  {
    var m := msgs[i];
    runs', cur', periods' := runs, cur, periods;
    var hit := OverlapsRun(msgs, cur, m, if m.point in periods then periods[m.point] else []);
    if hit {
      runs' := Flush(msgs, runs, cur);
      cur', periods' := [], map[];
    }
    StartsNext(msgs, runs, cur, i, hit, runs', cur');
    assert Flatten(runs') + cur' == Flatten(runs) + cur;
    Assoc(Flatten(runs'), cur', [i]);
    cur', periods' := Append(msgs, cur', periods', i);
  }

  /** The message becomes the last of the current run. */
  method Append(msgs: seq<Message>, cur: seq<nat>, periods: map<string, seq<(int, int)>>, i: nat)
    returns (cur': seq<nat>, periods': map<string, seq<(int, int)>>)
    requires i < |msgs| && !SelfOverlap(msgs[i].energy) && Kept(msgs, cur, periods) && Harmless(msgs, cur) && !ClashIn(msgs, cur, msgs[i])
    ensures cur' == cur + [i] && Kept(msgs, cur', periods') && Harmless(msgs, cur')
  {
    var m := msgs[i];
    HarmlessNext(msgs, cur, i);
    KeptNext(msgs, cur, periods, i);
    cur' := cur + [i];
    periods' := periods[m.point := (if m.point in periods then periods[m.point] else []) + Spans(m.energy)];
  }

  lemma StartsNext(msgs: seq<Message>, runs: seq<Run>, cur: seq<nat>, i: nat, hit: bool, runs': seq<Run>, cur': seq<nat>)
    requires i < |msgs| && InRange(msgs, cur) && StartsRun(msgs, runs, cur) && (hit <==> ClashIn(msgs, cur, msgs[i]))
    requires if hit then (cur != [] ==> runs' == runs + [Run(cur, false)]) && cur' == [] else runs' == runs && cur' == cur
    ensures StartsRun(msgs, runs', cur' + [i])
  {
    if hit {
      assert cur != [];
    }
  }

  /** A message that overlaps itself is a run of its own. */
  method Alone(msgs: seq<Message>, runs: seq<Run>, cur: seq<nat>, i: nat) returns (r: seq<Run>)
    requires i < |msgs| && SelfOverlap(msgs[i].energy) && InRange(msgs, cur) && Harmless(msgs, cur)
    requires forall r :: r in runs ==> GoodRun(msgs, r)
    requires Longest(msgs, runs) && StartsRun(msgs, runs, cur)
    ensures Flatten(r) == Flatten(runs) + cur + [i]
    ensures forall x :: x in r ==> GoodRun(msgs, x)
    ensures Longest(msgs, r) && StartsRun(msgs, r, [])
  {
    r := Flush(msgs, runs, cur);
    FlattenSnoc(r, Run([i], true));
    LongestNext(msgs, r, Run([i], true));
    r := r + [Run([i], true)];
  }

  method Flush(msgs: seq<Message>, runs: seq<Run>, cur: seq<nat>) returns (r: seq<Run>)
    requires InRange(msgs, cur) && Harmless(msgs, cur)
    requires forall r :: r in runs ==> GoodRun(msgs, r)
    requires Longest(msgs, runs) && StartsRun(msgs, runs, cur)
    ensures Flatten(r) == Flatten(runs) + cur
    ensures forall x :: x in r ==> GoodRun(msgs, x)
    ensures Longest(msgs, r) && (cur != [] ==> r == runs + [Run(cur, false)])
  {
    r := runs;
    if |cur| > 0 {
      FlattenSnoc(runs, Run(cur, false));
      LongestNext(msgs, runs, Run(cur, false));
      r := runs + [Run(cur, false)];
    }
  }
}
