/** ImportBatch: the messages of a tenant grouped by community, cut into runs and stored
    (mqttclient/importBatch.go). */
module ImportBatch {
  import opened Calendar
  import opened Rows
  import opened StoreSpec
  import opened DayBatch
  import opened Storage
  import opened Runs
  import opened ImportSpec
  import opened Outcomes
  import opened Importer
  import opened World
  import opened Seqs

  lemma {:induction false} AllBlocksConcat(z: Zone, msgs: seq<Message>, a: seq<nat>, b: seq<nat>)
    requires InRange(msgs, a) && InRange(msgs, b)
    ensures InRange(msgs, a + b)
    ensures AllBlocks(z, msgs, a + b) == AllBlocks(z, msgs, a) + AllBlocks(z, msgs, b)
    decreases |a|
  {
    if a == [] {
      assert a + b == b;
    } else {
      TailOfConcat(a, b);
      AllBlocksConcat(z, msgs, a[1..], b);
      Assoc(BlocksOf(z, msgs[a[0]]), AllBlocks(z, msgs, a[1..]), AllBlocks(z, msgs, b));
    }
  }

  /** Both parts imported, one after the other. */
  lemma ImportedConcat(z: Zone, db: Db, db1: Db, db0: Db, errs1: seq<Outcome>, errs: seq<Outcome>, msgs: seq<Message>, a: seq<nat>, b: seq<nat>)
    requires Imported(z, db1, db0, errs1, msgs, a) && Imported(z, db, db1, errs, msgs, b) && Only(errs1, errs, b)
    ensures Imported(z, db, db0, errs, msgs, a + b)
  {
    AllBlocksConcat(z, msgs, a, b);
    forall r | 0 <= r < |a + b| ensures errs[(a + b)[r]] == Ok {
      if r < |a| {
        var i := a[r];
        if i in b {
          var s :| 0 <= s < |b| && b[s] == i;
        }
      }
    }
    if Daily(z, AllBlocks(z, msgs, a + b)) {
      var ba, bb := AllBlocks(z, msgs, a), AllBlocks(z, msgs, b);
      assert forall x :: x in ba ==> x in ba + bb;
      assert forall x :: x in bb ==> x in ba + bb;
      LandsOnConcat(z, db, db1, db0, ba, bb);
    }
  }

  lemma LandsOnConcat(z: Zone, db: Db, db1: Db, db0: Db, a: seq<Block>, b: seq<Block>)
    requires LandsOn(db1, StoreAll(z, db0, a), a) && LandsOn(db, StoreAll(z, db1, b), b)
    ensures LandsOn(db, StoreAll(z, db0, a + b), a + b)
  {
    StoreAllConcat(z, db0, a, b);
    LikeStoreAll(z, db1, StoreAll(z, db0, a), b);
    LikeTwice(db, StoreAll(z, db1, b), StoreAll(z, db0, a + b));
    if forall x :: x in a + b ==> Coded(x) {
      assert forall x :: x in a ==> x in a + b;
      assert forall x :: x in b ==> x in a + b;
    }
  }

  lemma VerdictsConcat(z: Zone, errs1: seq<Outcome>, errs: seq<Outcome>, msgs: seq<Message>, a: seq<nat>, b: seq<nat>,
                       log1: seq<Attempt>, ended1: bool, log2: seq<Attempt>, ended: bool, log: seq<Attempt>)
    requires Verdicts(z, errs1, msgs, a, log1, ended1) && Within(log1, log) && (ended1 ==> ended)
    requires Verdicts(z, errs, msgs, b, log2, ended) && Within(log2, log) && Only(errs1, errs, b)
    ensures Verdicts(z, errs, msgs, a + b, log, ended)
  {
    VerdictsLater(z, errs1, msgs, a, log1, ended1, log, ended);
    VerdictsLater(z, errs, msgs, b, log2, ended, log, ended);
    forall r | 0 <= r < |a + b| ensures (a + b)[r] < |msgs| && Verdict(z, errs[(a + b)[r]], msgs[(a + b)[r]], log, ended) {
      if r < |a| {
        var i := a[r];
        if i in b {
          var s :| 0 <= s < |b| && b[s] == i;
        }
      }
    }
  }

  /** No more messages failed than single stores were refused, and no more of these than faults. */
  ghost predicate Blamed(errs: seq<Outcome>, idx: seq<nat>, faults: int, log: seq<Attempt>) {
    |FailedSet(errs, idx)| <= Refusals(log) <= faults
  }

  lemma BlamedConcat(errs1: seq<Outcome>, errs: seq<Outcome>, a: seq<nat>, b: seq<nat>, faults1: int, faults2: int, log1: seq<Attempt>, log2: seq<Attempt>)
    requires Blamed(errs1, a, faults1, log1) && Blamed(errs, b, faults2, log2) && Only(errs1, errs, b)
    ensures Blamed(errs, a + b, faults1 + faults2, log1 + log2)
  {
    RefusalsConcat(log1, log2);
    assert FailedSet(errs, a + b) <= FailedSet(errs1, a) + FailedSet(errs, b);
    SubsetSize(FailedSet(errs, a + b), FailedSet(errs1, a) + FailedSet(errs, b));
  }

  lemma NoneFailed(errs: seq<Outcome>, idx: seq<nat>)
    requires forall r :: 0 <= r < |idx| && idx[r] < |errs| ==> !errs[idx[r]].Failed?
    ensures FailedSet(errs, idx) == {}
  {
  }

  lemma OnlyConcat(errs0: seq<Outcome>, errs1: seq<Outcome>, errs: seq<Outcome>, a: seq<nat>, b: seq<nat>)
    requires Only(errs0, errs1, a) && Only(errs1, errs, b)
    ensures Only(errs0, errs, a + b)
  {
  }

  /** The messages get errStopped. */
  method StopAll(z: Zone, msgs: seq<Message>, idx: seq<nat>, errs: seq<Outcome>) returns (errs': seq<Outcome>)
    requires InRange(msgs, idx) && |errs| == |msgs|
    ensures Only(errs, errs', idx) && Verdicts(z, errs', msgs, idx, [], true) && Blamed(errs', idx, 0, [])
  {
    errs' := errs;
    for r := 0 to |idx|
      invariant Only(errs, errs', idx)
      invariant forall j :: 0 <= j < r ==> errs'[idx[j]] == Stopped
    {
      errs' := errs'[idx[r] := Stopped];
    }
    NoneFailed(errs', idx);
  }

  method ImportAt(w: Context, st: BowStorage, msgs: seq<Message>, i: nat, errs: seq<Outcome>) returns (errs': seq<Outcome>)
    requires st.z.Valid() && i < |msgs| == |errs|
    modifies w, st
    ensures old(w.ended) ==> w.ended
    ensures old(w.faults) <= w.faults && old(st.log) <= st.log
    ensures Only(errs, errs', [i])
    ensures Verdicts(st.z, errs', msgs, [i], st.log[|old(st.log)|..], w.ended)
    ensures Blamed(errs', [i], w.faults - old(w.faults), st.log[|old(st.log)|..])
    ensures w.faults == old(w.faults) && !w.ended ==> Imported(st.z, st.Db(), old(st.Db()), errs', msgs, [i])
  {
    var out := ImportOne(w, st, msgs[i]);
    errs' := errs[i := out];
    OneBlamed(errs', i, w.faults - old(w.faults), st.log[|old(st.log)|..]);
    if w.faults == old(w.faults) && !w.ended {
      OneImported(st.z, st.Db(), old(st.Db()), errs', msgs, i);
    }
  }

  lemma OneBlamed(errs: seq<Outcome>, i: nat, faults: int, log: seq<Attempt>)
    requires i < |errs| && faults == Refusals(log) && (errs[i].Failed? ==> Refusals(log) > 0)
    ensures Blamed(errs, [i], faults, log)
  {
    assert FailedSet(errs, [i]) == if errs[i].Failed? then {i} else {};
  }

  /** The messages one by one. */
  method ImportEach(w: Context, st: BowStorage, msgs: seq<Message>, idx: seq<nat>, errs: seq<Outcome>) returns (errs': seq<Outcome>)
    requires st.z.Valid() && InRange(msgs, idx) && |errs| == |msgs|
    modifies w, st
    ensures old(w.ended) ==> w.ended
    ensures old(w.faults) <= w.faults && old(st.log) <= st.log
    ensures Only(errs, errs', idx)
    ensures Verdicts(st.z, errs', msgs, idx, st.log[|old(st.log)|..], w.ended)
    ensures Blamed(errs', idx, w.faults - old(w.faults), st.log[|old(st.log)|..])
    ensures w.faults == old(w.faults) && !w.ended ==> Imported(st.z, st.Db(), old(st.Db()), errs', msgs, idx)
  {
    errs' := errs;
    ghost var log0 := st.log;
    assert log0[|log0|..] == [] && FailedSet(errs, idx[..0]) == {};
    for r := 0 to |idx|
      invariant old(w.ended) ==> w.ended
      invariant old(w.faults) <= w.faults && log0 <= st.log
      invariant Only(errs, errs', idx[..r])
      invariant Verdicts(st.z, errs', msgs, idx[..r], st.log[|log0|..], w.ended)
      invariant Blamed(errs', idx[..r], w.faults - old(w.faults), st.log[|log0|..])
      invariant w.faults == old(w.faults) && !w.ended ==> Imported(st.z, st.Db(), old(st.Db()), errs', msgs, idx[..r])
    {
      ghost var log, ended, db1, errs1, faults := st.log, w.ended, st.Db(), errs', w.faults;
      errs' := ImportAt(w, st, msgs, idx[r], errs');
      assert idx[..r + 1] == idx[..r] + [idx[r]];
      PartDone(st.z, errs, errs1, errs', msgs, idx[..r], [idx[r]], log0, log, st.log, ended, w.ended, old(w.faults), faults, w.faults);
      if w.faults == old(w.faults) && !w.ended {
        ImportedConcat(st.z, st.Db(), db1, old(st.Db()), errs1, errs', msgs, idx[..r], [idx[r]]);
      }
    }
    assert idx[..|idx|] == idx;
  }

  /** The messages b after the messages a. */
  lemma PartDone(z: Zone, errs0: seq<Outcome>, errs1: seq<Outcome>, errs: seq<Outcome>, msgs: seq<Message>, a: seq<nat>, b: seq<nat>,
                 log0: seq<Attempt>, log1: seq<Attempt>, log: seq<Attempt>, ended1: bool, ended: bool, faults0: nat, faults1: nat, faults: nat)
    requires log0 <= log1 <= log && (ended1 ==> ended) && Only(errs0, errs1, a) && Only(errs1, errs, b)
    requires Verdicts(z, errs1, msgs, a, log1[|log0|..], ended1) && Verdicts(z, errs, msgs, b, log[|log1|..], ended)
    requires Blamed(errs1, a, faults1 - faults0, log1[|log0|..]) && Blamed(errs, b, faults - faults1, log[|log1|..])
    ensures Only(errs0, errs, a + b) && Verdicts(z, errs, msgs, a + b, log[|log0|..], ended) && Blamed(errs, a + b, faults - faults0, log[|log0|..])
  {
    SuffixWithin(log0, log1, log);
    assert log[|log0|..] == log1[|log0|..] + log[|log1|..];
    VerdictsConcat(z, errs1, errs, msgs, a, b, log1[|log0|..], ended1, log[|log1|..], ended, log[|log0|..]);
    OnlyConcat(errs0, errs1, errs, a, b);
    BlamedConcat(errs1, errs, a, b, faults1 - faults0, faults - faults1, log1[|log0|..], log[|log1|..]);
  }

  lemma OneImported(z: Zone, db: Db, db0: Db, errs: seq<Outcome>, msgs: seq<Message>, i: nat)
    requires |errs| == |msgs| && i < |msgs| && errs[i] == Ok && db == StoreAll(z, db0, BlocksOf(z, msgs[i]))
    ensures Imported(z, db, db0, errs, msgs, [i])
  {
    assert [i][1..] == [];
    assert AllBlocks(z, msgs, [i]) == BlocksOf(z, msgs[i]);
  }

  /** One run: stopped, a message on its own, or day by day. False after a meta record error. */
  method ImportNextRun(w: Context, st: BowStorage, msgs: seq<Message>, run: Run, errs: seq<Outcome>)
    returns (ok: bool, errs': seq<Outcome>)
    requires st.z.Valid() && GoodRun(msgs, run) && |errs| == |msgs|
    modifies w, st
    ensures old(w.ended) ==> w.ended
    ensures old(w.faults) <= w.faults && old(st.log) <= st.log
    ensures Only(errs, errs', run.idx)
    ensures Verdicts(st.z, errs', msgs, run.idx, st.log[|old(st.log)|..], w.ended)
    ensures Blamed(errs', run.idx, w.faults - old(w.faults), st.log[|old(st.log)|..])
    ensures !run.single ==> RunSpared(errs', run.idx, w.faults - old(w.faults), st.log[|old(st.log)|..])
    ensures w.faults == old(w.faults) && !w.ended ==> ok && Imported(st.z, st.Db(), old(st.Db()), errs', msgs, run.idx)
  {
    ok := true;
    ghost var log := st.log;
    assert log[|log|..] == [];
    var ended := w.Ended();
    if ended {
      errs' := StopAll(st.z, msgs, run.idx, errs);
    } else if run.single {
      var i := run.idx[0];
      assert run.idx == [i];
      var out := Import(w, st, msgs[i]);
      errs' := errs[i := out];
      ImportVerdict(st.z, msgs[i], st.log[|log|..], out, w.ended);
      OneBlamed(errs', i, w.faults - old(w.faults), st.log[|log|..]);
      if out == Ok {
        OneImported(st.z, st.Db(), old(st.Db()), errs', msgs, i);
      }
    } else {
      ok, errs' := ImportRun(w, st, msgs, run.idx, errs);
    }
  }

  lemma {:induction false} FlattenConcat(a: seq<Run>, b: seq<Run>)
    ensures Flatten(a + b) == Flatten(a) + Flatten(b)
    decreases |a|
  {
    if a == [] {
      assert a + b == b;
    } else {
      assert (a + b)[1..] == a[1..] + b;
      FlattenConcat(a[1..], b);
    }
  }

  lemma FlattenAt(runs: seq<Run>, r: nat)
    requires r < |runs|
    ensures Flatten(runs) == Flatten(runs[..r]) + runs[r].idx + Flatten(runs[r + 1..])
    ensures Flatten(runs[..r + 1]) == Flatten(runs[..r]) + runs[r].idx
    ensures Flatten(runs) == Flatten(runs[..r + 1]) + Flatten(runs[r + 1..])
  {
    FlattenSnoc(runs[..r], runs[r]);
    assert runs[..r + 1] == runs[..r] + [runs[r]];
    assert runs == runs[..r + 1] + runs[r + 1..];
    FlattenConcat(runs[..r + 1], runs[r + 1..]);
  }

  /** The messages of one community in an open store, run by run. */
  method ImportRuns(w: Context, st: BowStorage, msgs: seq<Message>, idx: seq<nat>, errs: seq<Outcome>) returns (errs': seq<Outcome>)
    requires st.z.Valid() && InRange(msgs, idx) && |errs| == |msgs|
    modifies w, st
    ensures old(w.ended) ==> w.ended
    ensures old(w.faults) <= w.faults && old(st.log) <= st.log
    ensures Only(errs, errs', idx)
    ensures Verdicts(st.z, errs', msgs, idx, st.log[|old(st.log)|..], w.ended)
    ensures Blamed(errs', idx, w.faults - old(w.faults), st.log[|old(st.log)|..])
    ensures w.faults == old(w.faults) && !w.ended ==> Imported(st.z, st.Db(), old(st.Db()), errs', msgs, idx)
  {
    ghost var log0 := st.log;
    var runs := SplitRuns(msgs, idx);
    errs' := errs;
    assert Flatten(runs[..0]) == [] && log0[|log0|..] == [] && FailedSet(errs, []) == {};
    for r := 0 to |runs|
      invariant old(w.ended) ==> w.ended
      invariant old(w.faults) <= w.faults && log0 <= st.log
      invariant Only(errs, errs', Flatten(runs[..r]))
      invariant Verdicts(st.z, errs', msgs, Flatten(runs[..r]), st.log[|log0|..], w.ended)
      invariant Blamed(errs', Flatten(runs[..r]), w.faults - old(w.faults), st.log[|log0|..])
      invariant w.faults == old(w.faults) && !w.ended ==> Imported(st.z, st.Db(), old(st.Db()), errs', msgs, Flatten(runs[..r]))
    {
      ghost var done := Flatten(runs[..r]);
      ghost var log, ended, db1, errs1, faults := st.log, w.ended, st.Db(), errs', w.faults;
      FlattenAt(runs, r);
      assert runs[r] in runs;
      PartInRange(msgs, idx, done, runs[r].idx, Flatten(runs[r + 1..]));
      var ok;
      ok, errs' := ImportNextRun(w, st, msgs, runs[r], errs');
      PartDone(st.z, errs, errs1, errs', msgs, done, runs[r].idx, log0, log, st.log, ended, w.ended, old(w.faults), faults, w.faults);
      if w.faults == old(w.faults) && !w.ended {
        ImportedConcat(st.z, st.Db(), db1, old(st.Db()), errs1, errs', msgs, done, runs[r].idx);
      }
      if !ok {
        errs' := ImportRest(w, st, msgs, runs[r + 1..], errs', log0, errs, Flatten(runs[..r + 1]), old(w.faults));
        return;
      }
    }
    assert runs[..|runs|] == runs;
  }

  lemma PartInRange(msgs: seq<Message>, idx: seq<nat>, a: seq<nat>, b: seq<nat>, c: seq<nat>)
    requires InRange(msgs, idx) && idx == a + b + c
    ensures InRange(msgs, b) && InRange(msgs, c)
  {
    forall r | 0 <= r < |b| ensures b[r] < |msgs| {
      assert idx[|a| + r] == b[r];
    }
    forall r | 0 <= r < |c| ensures c[r] < |msgs| {
      assert idx[|a| + |b| + r] == c[r];
    }
  }

  /** After a meta record error the messages of the later runs are imported one by one. */
  method ImportRest(w: Context, st: BowStorage, msgs: seq<Message>, rest: seq<Run>, errs: seq<Outcome>, ghost log0: seq<Attempt>,
                    ghost errs0: seq<Outcome>, ghost done: seq<nat>, ghost faults0: nat)
    returns (errs': seq<Outcome>)
    requires st.z.Valid() && InRange(msgs, Flatten(rest)) && |errs| == |msgs| && log0 <= st.log && faults0 <= w.faults
    requires Only(errs0, errs, done) && Verdicts(st.z, errs, msgs, done, st.log[|log0|..], w.ended) && Blamed(errs, done, w.faults - faults0, st.log[|log0|..])
    modifies w, st
    ensures old(w.ended) ==> w.ended
    ensures old(w.faults) <= w.faults && old(st.log) <= st.log
    ensures Only(errs0, errs', done + Flatten(rest))
    ensures Verdicts(st.z, errs', msgs, done + Flatten(rest), st.log[|log0|..], w.ended)
    ensures Blamed(errs', done + Flatten(rest), w.faults - faults0, st.log[|log0|..])
  {
    ghost var log, ended, faults := st.log, w.ended, w.faults;
    var idx := Flatten(rest);
    errs' := ImportEach(w, st, msgs, idx, errs);
    PartDone(st.z, errs0, errs, errs', msgs, done, idx, log0, log, st.log, ended, w.ended, faults0, faults, w.faults);
  }
}
