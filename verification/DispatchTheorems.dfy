/** What the invariant means for whole runs of the dispatcher: no deadlock, one actor per tenant, every
    executor closed once, messages in order, round robin. */
module DispatchTheorems {
  import opened Calendar
  import opened Dispatch
  import opened DispatchSafety
  import opened DispatchSteps
  import opened Seqs

  // ----- no deadlock -----

  /** The lane is not asleep and has a step of its own to make. */
  predicate CanStep(l: Lane) {
    !l.AsleepWork? && !l.AsleepCap? && !l.Done?
  }

  ghost predicate SomeoneSteps(s: State) {
    s.closers != {} || exists i :: 0 <= i < |s.lanes| && CanStep(s.lanes[i])
  }

  /** A victim, or none if no executor is idle. */
  lemma SomeVictim(s: State) returns (v: Option<Tenant>)
    ensures MayClose(s, v)
  {
    if exists t :: Idle(s, t) {
      var t :| Idle(s, t);
      v := Some(t);
    } else {
      v := None;
    }
  }

  /** A lane to wake, or none if none sleeps on work. */
  lemma SomeSleeper(s: State) returns (w: Option<nat>)
    ensures MayWake(s.lanes, w)
  {
    if exists i :: 0 <= i < |s.lanes| && s.lanes[i] == AsleepWork {
      var i :| 0 <= i < |s.lanes| && s.lanes[i] == AsleepWork;
      w := Some(i);
    } else {
      w := None;
    }
  }

  /** The event is a step of a lane or of a closer of the janitor, not of the outside. */
  predicate OwnStep(e: Event) {
    e.Takes? || e.Reserves? || e.VictimCloses? || e.Finishes? || e.Announces? || e.IdleCloses?
  }

  /** A lane that is not asleep does have a step. */
  lemma CanStepEnabled(s: State, i: nat) returns (e: Event)
    requires LanesOk(s) && i < |s.lanes| && CanStep(s.lanes[i])
    ensures Enabled(s, e) && OwnStep(e)
  {
    assert LaneOk(s, s.lanes[i]);
    var v := SomeVictim(s);
    var w := SomeSleeper(s);
    match s.lanes[i]
    case Checking => e := Takes(i);
    case WokenWork => e := Takes(i);
    case Reserving(_) => e := Reserves(i, v);
    case ClosingVictim(_, _) => e := VictimCloses(i, w);
    case Running(_, _, _) => e := Finishes(i, 0, w);
    case Announcing => e := Announces(i);
  }

  /** A closer does have one. */
  lemma CloserEnabled(s: State, t: Tenant) returns (e: Event)
    requires LanesOk(s) && t in s.closers
    ensures Enabled(s, e) && OwnStep(e)
  {
    assert Ending(s, t);
    var w := SomeSleeper(s);
    e := IdleCloses(t, w);
  }

  lemma SomeoneEnabled(s: State) returns (e: Event)
    requires LanesOk(s) && SomeoneSteps(s)
    ensures Enabled(s, e) && OwnStep(e)
  {
    if s.closers != {} {
      var t :| t in s.closers;
      e := CloserEnabled(s, t);
    } else {
      var i :| 0 <= i < |s.lanes| && CanStep(s.lanes[i]);
      e := CanStepEnabled(s, i);
    }
  }

  /** A tenant whose executor exists and is not idle has an actor that can step. */
  lemma BusyExecutor(s: State, t: Tenant)
    requires Owned(s) && LanesOk(s) && t in s.tenants && s.tenants[t].busy && s.tenants[t].executor.Some?
    ensures SomeoneSteps(s)
  {
    assert t in s.owners;
    if s.owners[t].ByLane? {
      var i := s.owners[t].lane;
      assert LaneOk(s, s.lanes[i]) && t in Held(s.lanes[i]);
      assert CanStep(s.lanes[i]);
    } else {
      assert t in s.closers;
    }
  }

  /** A lane asleep at the cap waits for someone who can step. */
  lemma CapSleeperWaits(c: Config, s: State)
    requires c.Valid() && Counted(c, s) && Owned(s) && LanesOk(s) && NoLostCap(c, s) && SleepsAtCap(s)
    ensures SomeoneSteps(s)
  {
    if Announced(s) {
      assert |Opened(s)| != 0;
      var t :| t in Opened(s);
      assert !Idle(s, t);
      BusyExecutor(s, t);
    } else {
      var i :| 0 <= i < |s.lanes| && s.lanes[i] == Announcing;
      assert CanStep(s.lanes[i]);
    }
  }

  /** A lane asleep on work while a tenant is available: another lane was woken. */
  lemma WorkSleeperWaits(s: State, i: nat, t: Tenant)
    requires NoLostWork(s) && !s.Closed() && i < |s.lanes| && s.lanes[i] == AsleepWork && t in s.ready && Available(s, t)
    ensures SomeoneSteps(s)
  {
    SubsetSize({t}, Availables(s));
    assert |Woken(s)| != 0;
    var j :| j in Woken(s);
    assert CanStep(s.lanes[j]);
  }

  /** Until the context ends, a lane or a closer has a step to make as long as a message is queued or a
      tenant is busy. */
  lemma NoDeadlock(c: Config, s: State, t: Tenant) returns (e: Event)
    requires c.Valid() && Inv(c, s) && !s.ended && t in s.tenants && (s.tenants[t].queue != [] || s.tenants[t].busy)
    ensures Enabled(s, e) && OwnStep(e)
  {
    WorkIsSeen(c, s, t);
    e := SomeoneEnabled(s);
  }

  lemma WorkIsSeen(c: Config, s: State, t: Tenant)
    requires c.Valid() && Inv(c, s) && !s.ended && t in s.tenants && (s.tenants[t].queue != [] || s.tenants[t].busy)
    ensures SomeoneSteps(s)
  {
    if SleepsAtCap(s) {
      CapSleeperWaits(c, s);
    } else if s.tenants[t].busy {
      BusyTenant(s, t);
    } else if s.lanes[0] == AsleepWork {
      WorkSleeperWaits(s, 0, t);
    } else {
      assert CanStep(s.lanes[0]);
    }
  }

  lemma BusyTenant(s: State, t: Tenant)
    requires Owned(s) && !SleepsAtCap(s) && t in s.tenants && s.tenants[t].busy
    ensures SomeoneSteps(s)
  {
    assert t in s.owners;
    if s.owners[t].ByLane? {
      var i := s.owners[t].lane;
      assert t in Held(s.lanes[i]);
      assert CanStep(s.lanes[i]);
    } else {
      assert t in s.closers;
    }
  }

  /** After both broadcasts of the stop every lane has ended or has a step to make: Close does not wait
      for a sleeper. */
  lemma StopWakesAll(c: Config, s: State, i: nat) returns (e: Event)
    requires Inv(c, s) && s.stopper == AllSent && i < |s.lanes| && !s.lanes[i].Done?
    ensures Enabled(s, e) && OwnStep(e)
  {
    assert !SleepsAtCap(s);
    e := CanStepEnabled(s, i);
  }

  // ----- one actor per tenant -----

  /** Two lanes never work on or close the same tenant, nor does a lane and a goroutine of the janitor;
      a tenant is busy exactly while someone works on it or closes it. */
  lemma OneActor(s: State, t: Tenant)
    requires Owned(s)
    ensures forall i, j :: 0 <= i < |s.lanes| && 0 <= j < |s.lanes| && t in Held(s.lanes[i]) && t in Held(s.lanes[j]) ==> i == j
    ensures forall i :: 0 <= i < |s.lanes| && t in Held(s.lanes[i]) ==> t !in s.closers
    ensures t in s.tenants && s.tenants[t].busy <==> t in s.closers || exists i :: 0 <= i < |s.lanes| && t in Held(s.lanes[i])
  {
    assert forall i :: 0 <= i < |s.lanes| && t in Held(s.lanes[i]) ==> t in s.owners && s.owners[t] == ByLane(i);
    assert t in s.closers <==> t in s.owners && s.owners[t] == ByJanitor;
    if t in s.owners && s.owners[t].ByLane? {
      assert t in Held(s.lanes[s.owners[t].lane]);
    }
  }

  // ----- executors -----

  /** No batch runs on an executor whose Close was called. */
  lemma NeverClosedRunning(c: Config, states: seq<State>, events: seq<Event>, n: nat, i: nat)
    requires c.Valid() && Run(c, states, events) && n < |states| && i < |states[n].lanes| && states[n].lanes[i].Running?
    ensures states[n].lanes[i].executor !in states[n].closes
  {
    RunKeeps(c, states, events, n);
    assert LaneOk(states[n], states[n].lanes[i]);
  }

  /** A run that ends with Close has closed every executor it made, each once. */
  lemma AllClosedOnce(c: Config, states: seq<State>, events: seq<Event>)
    requires c.Valid() && Run(c, states, events) && events != [] && events[|events| - 1].ClosesAll?
    ensures var s := states[|events|]; NoDup(s.closes) && s.open == 0 && forall e :: e in s.closes <==> 0 <= e < s.created
  {
    var n := |events| - 1;
    RunKeeps(c, states, events, n);
    ClosedAll(c, states[n], events[n].ids);
  }

  lemma ClosedAll(c: Config, s: State, ids: seq<ExecutorId>)
    requires Owned(s) && LanesOk(s) && Lifetimes(s) && Enabled(s, ClosesAll(ids))
    ensures var s' := CloseAll(s, ids); NoDup(s'.closes) && s'.open == 0 && forall e :: e in s'.closes <==> 0 <= e < s'.created
  {
    AloneIdle(s);
    IdsNotClosed(s, s.tenants.Keys, ids);
    CloseAllLifetimes(c, s, ids);
  }

  // ----- batches -----

  /** A batch is a non-empty prefix of the queue of at most batchMax messages. */
  lemma BatchIsPrefix(c: Config, s: State, i: nat, t: Tenant, e: ExecutorId)
    requires c.Valid() && LanesOk(s) && i < |s.lanes| && s.lanes[i] == Reserving(t) && t in s.tenants
    ensures var s' := Start(c, s, i, t, e);
            s'.lanes[i].Running? && 0 < |s'.lanes[i].batch| <= c.batchMax && s'.lanes[i].batch + QueueOf(s', t) == QueueOf(s, t)
  {
    assert LaneOk(s, s.lanes[i]);
  }

  // ----- round robin -----

  /** u stands ahead of t in ready. */
  ghost predicate Ahead(ready: seq<Tenant>, u: Tenant, t: Tenant) {
    exists i, j :: 0 <= i < j < |ready| && ready[i] == u && ready[j] == t
  }

  /** The tenant that the event takes out of ready. */
  function TakenBy(s: State, e: Event): Option<Tenant> {
    if e.Takes? && NextReady(s, s.ready) < |s.ready| then Some(s.ready[NextReady(s, s.ready)]) else None
  }

  lemma MarkReadyChanges(s: State, t: Tenant, w: Option<nat>)
    requires t in s.tenants
    ensures s.ready <= MarkReady(s, t, w).ready
  {
  }

  lemma SettleChanges(s: State, t: Tenant, w: Option<nat>)
    requires t in s.tenants
    ensures s.ready <= Settle(s, t, w).ready
  {
    MarkReadyChanges(s, t, w);
  }

  /** Except by taking a tenant out, ready changes only at its back. */
  lemma ReadyGrows(c: Config, s: State, e: Event)
    requires Enabled(s, e) && TakenBy(s, e).None?
    ensures s.ready <= Apply(c, s, e).ready
  {
    match e
    case Submits(t, m, w) =>
      if !s.Closed() {
        MarkReadyChanges(Enqueued(s, t, m), t, w);
      }
    case Takes(i) =>
    case Reserves(i, v) => ReserveReady(c, s, i, v);
    case VictimCloses(i, w) =>
      var l := s.lanes[i];
      SettleChanges(Shed(s.(lanes := RouseCap(s.lanes[i := Reserving(l.tenant)])), l.victim), l.victim, w);
    case Finishes(i, now, w) => MarkReadyChanges(Finished(s, i, now), s.lanes[i].tenant, w);
    case Announces(i) =>
    case ClosesIdle(ts, ids) =>
    case IdleCloses(t, w) => SettleChanges(Shed(s.(lanes := RouseCap(s.lanes), closers := s.closers - {t}), t), t, w);
    case ContextEnds =>
    case Shuts =>
    case SendsWork =>
    case SendsCap =>
    case JanitorEnds =>
    case ClosesAll(ids) =>
  }

  lemma ReserveReady(c: Config, s: State, i: nat, v: Option<Tenant>)
    requires Enabled(s, Reserves(i, v))
    ensures Reserve(c, s, i, v).ready == s.ready
  {
  }

  lemma AheadAfterTaking(ready: seq<Tenant>, k: nat, u: Tenant, t: Tenant)
    requires k < |ready| && Ahead(ready, u, t) && ready[k] != u && ready[k] != t
    ensures Ahead(ready[..k] + ready[k + 1..], u, t)
  {
    var i, j :| 0 <= i < j < |ready| && ready[i] == u && ready[j] == t;
    var r := ready[..k] + ready[k + 1..];
    var i', j' := if i < k then i else i - 1, if j < k then j else j - 1;
    assert i' < j' && r[i'] == u && r[j'] == t;
  }

  lemma AheadAfterGrowing(ready: seq<Tenant>, ready': seq<Tenant>, u: Tenant, t: Tenant)
    requires ready <= ready' && Ahead(ready, u, t)
    ensures Ahead(ready', u, t)
  {
    var i, j :| 0 <= i < j < |ready| && ready[i] == u && ready[j] == t;
    assert ready'[i] == u && ready'[j] == t;
  }

  /** Until one of them is taken, u stays ahead of t. */
  lemma StaysAhead(c: Config, s: State, e: Event, u: Tenant, t: Tenant)
    requires Enabled(s, e) && Ahead(s.ready, u, t) && TakenBy(s, e) != Some(u) && TakenBy(s, e) != Some(t)
    ensures Ahead(Apply(c, s, e).ready, u, t)
  {
    if TakenBy(s, e).Some? {
      AheadAfterTaking(s.ready, NextReady(s, s.ready), u, t);
    } else {
      ReadyGrows(c, s, e);
      AheadAfterGrowing(s.ready, Apply(c, s, e).ready, u, t);
    }
  }

  /** A tenant that is passed over in ready is having its executor closed. */
  lemma PassedOver(c: Config, s: State, e: Event, u: Tenant, t: Tenant)
    requires Inv(c, s) && Enabled(s, e) && Ahead(s.ready, u, t) && TakenBy(s, e) == Some(t)
    ensures Ending(s, u) && s.tenants[u].busy
  {
    var i, j :| 0 <= i < j < |s.ready| && s.ready[i] == u && s.ready[j] == t;
    assert NextReady(s, s.ready) == j;
    NextReadySkips(s, s.ready, i);
    assert u in s.ready;
    ReadyBusyEnds(s, u);
  }

  lemma ReadyBusyEnds(s: State, u: Tenant)
    requires Owned(s) && LanesOk(s) && u in s.tenants && s.tenants[u].busy && s.tenants[u].isReady
    ensures Ending(s, u)
  {
    assert u in s.owners;
    if s.owners[u].ByLane? {
      assert LaneOk(s, s.lanes[s.owners[u].lane]);
    }
  }

  /** Round robin: when t is taken, whoever stood ahead of it when it was put in ready has been taken
      since, or is having its executor closed at that moment. */
  lemma {:induction false} RoundRobin(c: Config, states: seq<State>, events: seq<Event>, a: nat, b: nat, u: Tenant, t: Tenant)
    requires c.Valid() && Run(c, states, events) && a <= b < |events|
    requires Ahead(states[a].ready, u, t)
    requires TakenBy(states[b], events[b]) == Some(t)
    requires forall n :: a <= n < b ==> TakenBy(states[n], events[n]) != Some(t)
    ensures (exists n :: a <= n < b && TakenBy(states[n], events[n]) == Some(u)) || Ending(states[b], u)
    decreases b - a
  {
    RunKeeps(c, states, events, a);
    if a == b {
      PassedOver(c, states[a], events[a], u, t);
    } else if TakenBy(states[a], events[a]) != Some(u) {
      StaysAhead(c, states[a], events[a], u, t);
      RoundRobin(c, states, events, a + 1, b, u, t);
    }
  }

  // ----- whole runs -----

  /** Messages: at any moment of any run, what was handed to the executors of a tenant so far, followed
      by its queue, is what was accepted for it, in that order, also over the times the tenant was
      forgotten and came back. */
  lemma AcceptedInOrder(c: Config, states: seq<State>, events: seq<Event>, n: nat, t: Tenant)
    requires c.Valid() && Run(c, states, events) && n < |states|
    ensures MessagesOf(states[n].taken, t) + QueueOf(states[n], t) == MessagesOf(states[n].accepted, t)
  {
    RunKeeps(c, states, events, n);
  }
}
