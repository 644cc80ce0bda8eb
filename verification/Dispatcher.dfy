/** The TopicDispatcher as code: the sections its goroutines run under the mutex. Each method makes one
    step of the state machine of Dispatch, whose state the object carries as a ghost, so that the
    invariant of that machine (DispatchSteps.StepKeeps) holds before and after every section. */
module Dispatcher {
  import opened Calendar
  import opened Dispatch
  import opened DispatchSafety
  import opened DispatchSteps
  import opened Seqs
  import opened DispatchTheorems

  const MIN_IDLE_CLOSE: int := 2_000_000_000   // nanoseconds

  /** An idle executor of a tenant without queued messages. */
  predicate IdleUnqueued(s: State, t: Tenant) {
    Idle(s, t) && !s.tenants[t].isReady
  }

  /** capVictim: the idle executor without queued work that was used longest ago, else the idle one
      that stands last in ready, else none. */
  ghost predicate IsVictim(s: State, v: Option<Tenant>) {
    if exists t :: IdleUnqueued(s, t) then
      v.Some? && IdleUnqueued(s, v.value) && forall t :: IdleUnqueued(s, t) ==> s.tenants[v.value].lastUsed <= s.tenants[t].lastUsed
    else if v.Some? then
      exists k :: 0 <= k < |s.ready| && s.ready[k] == v.value && Idle(s, v.value) && forall j :: k < j < |s.ready| ==> !Idle(s, s.ready[j])
    else
      forall t :: !Idle(s, t)
  }

  /** The tenants, newest first. */
  ghost predicate NewestFirst(s: State, idle: seq<Tenant>) {
    && (forall t :: t in idle ==> t in s.tenants)
    && (forall i, j :: 0 <= i < j < |idle| ==> idle[i] != idle[j] && s.tenants[idle[i]].lastUsed >= s.tenants[idle[j]].lastUsed)
  }

  predicate Overdue(s: State, t: Tenant, now: int, timeout: int)
    requires t in s.tenants
  {
    now - s.tenants[t].lastUsed >= timeout
  }

  /** Why closeIdle closes the tenant: unused for idleTimeout, or for minIdleClose with parallel newer
      idle ones. */
  ghost predicate Stale(s: State, t: Tenant, parallel: nat, now: int, timeout: int)
    requires t in s.tenants
  {
    || Overdue(s, t, now, timeout)
    || (Overdue(s, t, now, MIN_IDLE_CLOSE) && exists newer: set<Tenant> :: |newer| == parallel && NewerThan(s, newer, t))
  }

  ghost predicate NewerThan(s: State, newer: set<Tenant>, t: Tenant) {
    t in s.tenants && t !in newer && forall u :: u in newer ==> IdleUnqueued(s, u) && s.tenants[u].lastUsed >= s.tenants[t].lastUsed
  }

  /** The idle executors used later than that of t. */
  ghost function Newer(s: State, t: Tenant): set<Tenant>
    requires t in s.tenants
  {
    set u | u in s.tenants && IdleUnqueued(s, u) && s.tenants[u].lastUsed > s.tenants[t].lastUsed
  }

  /** The executor has to be closed: overdue, or surplus for minIdleClose. */
  ghost predicate MustClose(s: State, t: Tenant, parallel: nat, now: int, timeout: int)
    requires t in s.tenants
  {
    Overdue(s, t, now, timeout) || (Overdue(s, t, now, MIN_IDLE_CLOSE) && |Newer(s, t)| >= parallel)
  }

  /** closeIdle closes at most parallel idle executors, only stale ones, and the oldest first: one that
      is overdue or surplus stays only if parallel others, none of them newer, are closed. */
  ghost predicate ClosesOldest(s: State, closing: seq<Tenant>, parallel: nat, now: int, timeout: int) {
    && |closing| <= parallel
    && (forall t :: t in closing ==> IdleUnqueued(s, t) && Stale(s, t, parallel, now, timeout))
    && (forall t :: IdleUnqueued(s, t) && t !in closing && MustClose(s, t, parallel, now, timeout) ==> |closing| == parallel && NoneNewer(s, closing, t))
  }

  ghost predicate NoneNewer(s: State, closing: seq<Tenant>, t: Tenant)
    requires t in s.tenants
  {
    forall u :: u in closing ==> u in s.tenants && s.tenants[u].lastUsed <= s.tenants[t].lastUsed
  }

  lemma VictimMayClose(s: State, v: Option<Tenant>)
    requires IsVictim(s, v)
    ensures MayClose(s, v)
  {
  }

  class TopicDispatcher {
    const c: Config
    const idleTimeout: int
    var tenants: map<Tenant, TenantQueue>
    var ready: seq<Tenant>
    var open: int
    var closed: bool
    var created: nat
    ghost var state: State

    /** The fields are those of the ghost state. */
    ghost predicate Shows(s: State)
      reads this
    {
      s.tenants == tenants && s.ready == ready && s.open == open && s.Closed() == closed && s.created == created
    }

    constructor (c: Config, idleTimeout: int)
      requires c.Valid()
      ensures Shows(state) && this.c == c && this.idleTimeout == idleTimeout && state == Initial(c)
    {
      this.c, this.idleTimeout := c, idleTimeout;
      tenants, ready, open, closed, created := map[], [], 0, false, 0;
      state := Initial(c);
    }

    /** markReady; the lane that the signal wakes, if any, is w. */
    method PutReady(t: Tenant, ghost w: Option<nat>)
      requires Shows(state) && t in tenants
      modifies this`tenants, this`ready, this`state
      ensures Shows(state) && state == MarkReady(old(state), t, w)
    {
      var q := tenants[t];
      if q.busy || q.isReady || |q.queue| == 0 || closed {
        return;
      }
      tenants := tenants[t := q.(isReady := true)];
      ready := ready + [t];
      state := MarkReady(state, t, w);
    }

    /** Submit; the lane that the signal wakes, if any, is w. */
    method Submit(t: Tenant, m: Msg, ghost w: Option<nat>)
      requires Shows(state) && MayWake(state.lanes, w)
      modifies this
      ensures Shows(state) && state == Apply(c, old(state), Submits(t, m, w))
    {
      if closed {
        return;
      }
      var q := if t in tenants then tenants[t] else TenantQueue([], None, false, false, 0);
      tenants := tenants[t := q.(queue := q.queue + [m])];
      state := Enqueued(state, t, m);
      PutReady(t, w);
    }

    /** nextReady. */
    method TakeReady() returns (t: Option<Tenant>)
      requires Shows(state) && Standing(state)
      modifies this`tenants, this`ready
      ensures var k := NextReady(state, old(ready));
              if k < |old(ready)|
              then t == Some(old(ready)[k]) && ready == old(ready)[..k] + old(ready)[k + 1..] && t.value in old(tenants) && tenants == old(tenants)[t.value := old(tenants)[t.value].(isReady := false)]
              else t == None && ready == old(ready) && tenants == old(tenants)
    {
      var i := 0;
      while i < |ready|
        invariant i <= |ready| && ready == old(ready) && tenants == old(tenants)
        invariant NextReady(state, ready) == i + NextReady(state, ready[i..])
      {
        assert ready[i..][1..] == ready[i + 1..];
        assert ready[i] in state.tenants;
        if !tenants[ready[i]].busy {
          t := Some(ready[i]);
          ready := ready[..i] + ready[i + 1..];
          tenants := tenants[t.value := tenants[t.value].(isReady := false)];
          return;
        }
        i := i + 1;
      }
      assert ready[|ready|..] == [];
      t := None;
    }

    /** The head of lane's loop: nextReady, then sleep, end, or hold the tenant. */
    method LookForWork(ghost i: nat) returns (t: Option<Tenant>)
      requires Shows(state) && Standing(state) && Enabled(state, Takes(i))
      modifies this
      ensures Shows(state) && state == Apply(c, old(state), Takes(i))
      ensures t.Some? ==> state.lanes[i] == Reserving(t.value)
    {
      t := TakeReady();
      if t.Some? && !closed {
        tenants := tenants[t.value := tenants[t.value].(busy := true)];
      }
      state := Take(state, i);
      if closed {
        t := None;
      }
    }

    /** The idle executor without queued messages that was used longest ago. */
    method LongestUnused() returns (best: Option<Tenant>)
      requires Shows(state)
      ensures best.Some? ==> IdleUnqueued(state, best.value)
      ensures forall t :: IdleUnqueued(state, t) ==> best.Some? && tenants[best.value].lastUsed <= tenants[t].lastUsed
    {
      best := None;
      var rest := tenants.Keys;
      while rest != {}
        invariant rest <= tenants.Keys
        invariant best.Some? ==> IdleUnqueued(state, best.value)
        invariant forall t :: IdleUnqueued(state, t) && t !in rest ==> best.Some? && tenants[best.value].lastUsed <= tenants[t].lastUsed
        decreases rest
      {
        var t :| t in rest;
        var q := tenants[t];
        if q.executor.Some? && !q.busy && !q.isReady && (best.None? || q.lastUsed < tenants[best.value].lastUsed) {
          best := Some(t);
        }
        rest := rest - {t};
      }
    }

    /** capVictim. */
    method CapVictim() returns (v: Option<Tenant>)
      requires Shows(state) && Standing(state)
      ensures IsVictim(state, v)
    {
      v := LongestUnused();
      if v.Some? {
        return;
      }
      var k := |ready|;
      while k > 0
        invariant 0 <= k <= |ready|
        invariant forall j :: k <= j < |ready| ==> !Idle(state, ready[j])
      {
        k := k - 1;
        var t := ready[k];
        assert t in state.tenants;
        if tenants[t].executor.Some? && !tenants[t].busy {
          assert Idle(state, ready[k]);
          return Some(t);
        }
      }
      forall t ensures !Idle(state, t) {
        assert Idle(state, t) ==> IdleUnqueued(state, t) || t in state.ready;
      }
    }

    /** The batch of the tenant held by lane i, on its executor or a new one. */
    method NextBatch(ghost i: nat, t: Tenant, e: ExecutorId) returns (batch: seq<Msg>)
      requires Shows(state) && i < |state.lanes| && t in tenants
      modifies this`tenants, this`state
      ensures Shows(state) && state == Start(c, old(state), i, t, e)
      ensures state.lanes[i] == Running(t, e, batch)
    {
      var q := tenants[t];
      var n := if |q.queue| < c.batchMax then |q.queue| else c.batchMax;
      batch := q.queue[..n];
      tenants := tenants[t := q.(queue := q.queue[n..], executor := Some(e))];
      state := Start(c, state, i, t, e);
    }

    /** reserveOpen at the cap: end, close the victim, or sleep. ended: ctx.Err() != nil. */
    method MakeRoom(ghost i: nat, t: Tenant, ended: bool) returns (victim: Option<Tenant>)
      requires Shows(state) && Standing(state) && ended == state.ended
      requires i < |state.lanes| && state.lanes[i] == Reserving(t) && t in tenants && tenants[t].executor.None? && open >= c.maxOpen
      modifies this
      ensures IsVictim(old(state), victim) && Shows(state) && state == Reserve(c, old(state), i, victim)
    {
      victim := CapVictim();
      VictimMayClose(state, victim);
      if closed || ended {
        tenants := tenants[t := tenants[t].(busy := false)];
      } else if victim.Some? {
        tenants := tenants[victim.value := tenants[victim.value].(busy := true)];
      }
      state := Reserve(c, state, i, victim);
    }

    /** lane with a tenant in hand: run it, or one round of reserveOpen at the cap. */
    method RunOrMakeRoom(ghost i: nat, t: Tenant, ended: bool) returns (batch: Option<seq<Msg>>, ghost v: Option<Tenant>)
      requires Shows(state) && Standing(state) && ended == state.ended
      requires i < |state.lanes| && state.lanes[i] == Reserving(t) && t in tenants
      modifies this
      ensures Enabled(old(state), Reserves(i, v)) && (old(tenants)[t].executor.None? && old(open) >= c.maxOpen ==> IsVictim(old(state), v))
      ensures Shows(state) && state == Apply(c, old(state), Reserves(i, v))
      ensures batch == if state.lanes[i].Running? then Some(state.lanes[i].batch) else None
    {
      batch := None;
      if tenants[t].executor.Some? {
        v := SomeVictim(state);
        var b := NextBatch(i, t, tenants[t].executor.value);
        batch := Some(b);
      } else if open < c.maxOpen {
        v := SomeVictim(state);
        batch := RunNew(i, t);
      } else {
        var victim := MakeRoom(i, t, ended);
        v := victim;
        VictimMayClose(old(state), v);
      }
    }

    method RunNew(ghost i: nat, t: Tenant) returns (batch: Option<seq<Msg>>)
      requires Shows(state) && i < |state.lanes| && t in tenants
      modifies this
      ensures Shows(state) && state == Start(c, old(state), i, t, old(state).created).(open := old(open) + 1, created := old(created) + 1)
      ensures batch.Some? && state.lanes[i].Running? && state.lanes[i].batch == batch.value
    {
      var e := created;
      var b := NextBatch(i, t, e);
      open := open + 1;
      created := created + 1;
      state := state.(open := open, created := created);
      batch := Some(b);
    }

    /** markClosed. */
    method ExecutorGone(t: Tenant, ghost w: Option<nat>)
      requires Shows(state) && t in tenants
      modifies this
      ensures Shows(state) && state == MarkClosed(old(state), t, w)
    {
      tenants := tenants[t := tenants[t].(executor := None, busy := false)];
      open := open - 1;
      state := Shed(state.(lanes := RouseCap(state.lanes)), t);
      if tenants[t].isReady {
        state := Settle(state, t, w);
      } else if |tenants[t].queue| == 0 {
        tenants := tenants - {t};
        state := Settle(state, t, w);
      } else {
        PutReady(t, w);
      }
    }

    /** reserveOpen after it closed its victim. */
    method VictimClosed(ghost i: nat, victim: Tenant, ghost w: Option<nat>)
      requires Shows(state) && Enabled(state, VictimCloses(i, w)) && victim == state.lanes[i].victim
      modifies this
      ensures Shows(state) && state == Apply(c, old(state), VictimCloses(i, w))
    {
      state := state.(lanes := state.lanes[i := Reserving(state.lanes[i].tenant)]);
      ExecutorGone(victim, w);
    }

    /** closeExecutor after the Close of the executor. */
    method IdleClosed(t: Tenant, ghost w: Option<nat>)
      requires Shows(state) && Enabled(state, IdleCloses(t, w))
      modifies this
      ensures Shows(state) && state == Apply(c, old(state), IdleCloses(t, w))
    {
      state := state.(closers := state.closers - {t});
      ExecutorGone(t, w);
    }

    /** lane after its batch. */
    method BatchDone(ghost i: nat, t: Tenant, now: int, ghost w: Option<nat>)
      requires Shows(state) && Enabled(state, Finishes(i, now, w)) && t == state.lanes[i].tenant
      modifies this
      ensures Shows(state) && state == Apply(c, old(state), Finishes(i, now, w))
    {
      tenants := tenants[t := tenants[t].(busy := false, lastUsed := now)];
      state := Finished(state, i, now);
      PutReady(t, w);
    }

    /** sort.Slice of the idle executors by lastUsed, newest first. */
    method SortIdle() returns (idle: seq<Tenant>)
      requires Shows(state)
      ensures NewestFirst(state, idle) && forall t :: t in idle <==> IdleUnqueued(state, t)
    {
      var rest := set t | t in tenants && tenants[t].executor.Some? && !tenants[t].busy && !tenants[t].isReady;
      assert forall t :: t in rest <==> IdleUnqueued(state, t);
      idle := [];
      while rest != {}
        invariant forall t :: t in rest || t in idle <==> IdleUnqueued(state, t)
        invariant forall t :: t in rest ==> t !in idle
        invariant NewestFirst(state, idle)
        invariant forall t, u :: t in idle && u in rest ==> tenants[t].lastUsed >= tenants[u].lastUsed
        decreases rest
      {
        var t := Newest(rest);
        SortedMore(state, idle, rest, t);
        idle := idle + [t];
        rest := rest - {t};
      }
    }

    method Newest(ts: set<Tenant>) returns (best: Tenant)
      requires ts != {} && ts <= tenants.Keys
      ensures best in ts && forall t :: t in ts ==> tenants[t].lastUsed <= tenants[best].lastUsed
    {
      best :| best in ts;
      var rest := ts - {best};
      while rest != {}
        invariant best in ts && rest <= ts
        invariant forall t :: t in ts && t !in rest ==> tenants[t].lastUsed <= tenants[best].lastUsed
        decreases rest
      {
        var t :| t in rest;
        if tenants[t].lastUsed > tenants[best].lastUsed {
          best := t;
        }
        rest := rest - {t};
      }
    }

    /** The choice of closeIdle: from the oldest on, at most parallel. */
    method ChooseStale(idle: seq<Tenant>, now: int) returns (closing: seq<Tenant>)
      requires Shows(state) && NewestFirst(state, idle) && forall t :: t in idle <==> IdleUnqueued(state, t)
      ensures ClosesOldest(state, closing, c.parallel, now, idleTimeout)
      ensures forall a, b :: 0 <= a < b < |closing| ==> closing[a] != closing[b]
    {
      closing := [];
      var i := |idle|;
      while i > 0 && |closing| < c.parallel
        invariant 0 <= i <= |idle| && |closing| <= c.parallel
        invariant forall t :: t in closing ==> t in idle[i..] && Stale(state, t, c.parallel, now, idleTimeout)
        invariant forall j :: i <= j < |idle| && Due(state, idle, j, c.parallel, now, idleTimeout) ==> idle[j] in closing
        invariant forall a, b :: 0 <= a < b < |closing| ==> closing[a] != closing[b]
      {
        i := i - 1;
        var t := idle[i];
        var idleFor := now - tenants[t].lastUsed;
        assert idle[i..] == [t] + idle[i + 1..];
        assert t !in idle[i + 1..];
        if (i >= c.parallel && idleFor >= MIN_IDLE_CLOSE) || idleFor >= idleTimeout {
          if i >= c.parallel {
            FirstNewer(state, idle, i, c.parallel);
          }
          closing := closing + [t];
        }
      }
      OldestChosen(state, idle, i, closing, c.parallel, now, idleTimeout);
    }

    /** closeIdle. */
    method CloseStale(now: int) returns (closing: seq<Tenant>, ghost ids: seq<ExecutorId>)
      requires Shows(state) && Lifetimes(state) && !state.janitorDone
      modifies this`tenants, this`state
      ensures ClosesOldest(old(state), closing, c.parallel, now, idleTimeout)
      ensures Enabled(old(state), ClosesIdle(SetOf(closing), ids))
      ensures Shows(state) && state == Apply(c, old(state), ClosesIdle(SetOf(closing), ids))
    {
      var idle := SortIdle();
      closing := ChooseStale(idle, now);
      ids := IdsOf(state, closing);
      MarkClosing(closing, ids);
    }

    method MarkClosing(closing: seq<Tenant>, ghost ids: seq<ExecutorId>)
      requires Shows(state)
      modifies this`tenants, this`state
      ensures Shows(state) && state == CloseIdle(old(state), SetOf(closing), ids)
    {
      tenants := map t | t in tenants :: if t in closing then tenants[t].(busy := true) else tenants[t];
      state := CloseIdle(state, SetOf(closing), ids);
    }

    /** The goroutine that waits for the end of the context. */
    method Shut()
      requires Shows(state) && Enabled(state, Shuts)
      modifies this`closed, this`state
      ensures Shows(state) && state == Apply(c, old(state), Shuts)
    {
      closed := true;
      state := Apply(c, state, Shuts);
    }

    /** Close after every goroutine ended: the executors left are taken and closed. */
    method CloseRest() returns (executors: seq<ExecutorId>)
      requires Shows(state) && Lifetimes(state) && Alone(state)
      modifies this`tenants, this`open, this`state
      ensures Enabled(old(state), ClosesAll(executors))
      ensures Shows(state) && state == Apply(c, old(state), ClosesAll(executors))
    {
      executors := TakeRest(state);
      open := 0;
      state := CloseAll(state, executors);
      assert state.tenants == tenants;
    }

    method TakeRest(ghost s: State) returns (executors: seq<ExecutorId>)
      requires tenants == s.tenants && Lifetimes(s)
      modifies this`tenants
      ensures Lists(s, s.tenants.Keys, executors)
      ensures tenants == map t | t in s.tenants :: s.tenants[t].(executor := None)
    {
      executors := [];
      var rest := tenants.Keys;
      while rest != {}
        invariant rest <= s.tenants.Keys == tenants.Keys
        invariant forall t :: t in rest ==> tenants[t] == s.tenants[t]
        invariant forall t :: t in s.tenants && t !in rest ==> tenants[t] == s.tenants[t].(executor := None)
        invariant Lists(s, s.tenants.Keys - rest, executors)
        decreases rest
      {
        var t :| t in rest;
        ListsMore(s, s.tenants.Keys - rest, executors, t);
        assert s.tenants.Keys - (rest - {t}) == (s.tenants.Keys - rest) + {t};
        if tenants[t].executor.Some? {
          executors := executors + [tenants[t].executor.value];
          tenants := tenants[t := tenants[t].(executor := None)];
        }
        rest := rest - {t};
      }
      assert s.tenants.Keys - rest == s.tenants.Keys;
    }
  }

  function SetOf(ts: seq<Tenant>): set<Tenant> {
    set t | t in ts
  }

  lemma ListsMore(s: State, ts: set<Tenant>, ids: seq<ExecutorId>, t: Tenant)
    requires Lifetimes(s) && Lists(s, ts, ids) && t in s.tenants && t !in ts
    ensures Lists(s, ts + {t}, if s.tenants[t].executor.Some? then ids + [s.tenants[t].executor.value] else ids)
  {
    var ids' := if s.tenants[t].executor.Some? then ids + [s.tenants[t].executor.value] else ids;
    forall e ensures e in ids' <==> exists u :: u in ts + {t} && u in s.tenants && s.tenants[u].executor == Some(e) {
      if e in ids {
        var u :| u in ts && u in s.tenants && s.tenants[u].executor == Some(e);
        assert u in ts + {t};
      } else if e in ids' {
        assert t in ts + {t};
      }
    }
    if s.tenants[t].executor.Some? {
      assert s.tenants[t].executor.value !in ids;
    }
  }

  /** The executors of the tenants, in their order. */
  lemma {:induction false} IdsOf(s: State, ts: seq<Tenant>) returns (ids: seq<ExecutorId>)
    requires Lifetimes(s) && (forall a, b :: 0 <= a < b < |ts| ==> ts[a] != ts[b]) && forall t :: t in ts ==> t in s.tenants
    ensures Lists(s, SetOf(ts), ids)
  {
    ids := [];
    if ts != [] {
      var n := |ts| - 1;
      var init := IdsOf(s, ts[..n]);
      assert ts == ts[..n] + [ts[n]];
      ListsMore(s, SetOf(ts[..n]), init, ts[n]);
      assert SetOf(ts) == SetOf(ts[..n]) + {ts[n]};
      ids := if s.tenants[ts[n]].executor.Some? then init + [s.tenants[ts[n]].executor.value] else init;
    }
  }

  lemma {:induction false} PrefixSize(idle: seq<Tenant>, n: nat)
    requires n <= |idle| && forall i, j :: 0 <= i < j < |idle| ==> idle[i] != idle[j]
    ensures |SetOf(idle[..n])| == n
  {
    if n > 0 {
      PrefixSize(idle, n - 1);
      assert idle[..n] == idle[..n - 1] + [idle[n - 1]];
      assert SetOf(idle[..n]) == SetOf(idle[..n - 1]) + {idle[n - 1]};
    }
  }

  lemma FirstNewer(s: State, idle: seq<Tenant>, i: nat, parallel: nat)
    requires NewestFirst(s, idle) && (forall t :: t in idle ==> IdleUnqueued(s, t)) && parallel <= i < |idle|
    ensures exists newer: set<Tenant> :: |newer| == parallel && NewerThan(s, newer, idle[i])
  {
    var newer := SetOf(idle[..parallel]);
    PrefixSize(idle, parallel);
    assert NewerThan(s, newer, idle[i]);
  }

  lemma OldestChosen(s: State, idle: seq<Tenant>, i: nat, closing: seq<Tenant>, parallel: nat, now: int, timeout: int)
    requires NewestFirst(s, idle) && (forall t :: t in idle <==> IdleUnqueued(s, t))
    requires i <= |idle| && |closing| <= parallel && (i == 0 || |closing| == parallel)
    requires forall t :: t in closing ==> t in idle[i..] && Stale(s, t, parallel, now, timeout)
    requires forall j :: i <= j < |idle| && Due(s, idle, j, parallel, now, timeout) ==> idle[j] in closing
    ensures ClosesOldest(s, closing, parallel, now, timeout)
  {
    forall t | IdleUnqueued(s, t) && t !in closing && MustClose(s, t, parallel, now, timeout) ensures |closing| == parallel && NoneNewer(s, closing, t) {
      var j :| 0 <= j < |idle| && idle[j] == t;
      NewerFirst(s, idle, j);
      assert Due(s, idle, j, parallel, now, timeout);
      assert j < i;
    }
  }

  /** The test of the loop for place j. */
  predicate Due(s: State, idle: seq<Tenant>, j: nat, parallel: nat, now: int, timeout: int)
    requires j < |idle| && idle[j] in s.tenants
  {
    (j >= parallel && Overdue(s, idle[j], now, MIN_IDLE_CLOSE)) || Overdue(s, idle[j], now, timeout)
  }

  /** The newer ones stand before it. */
  lemma NewerFirst(s: State, idle: seq<Tenant>, j: nat)
    requires NewestFirst(s, idle) && (forall t :: t in idle <==> IdleUnqueued(s, t)) && j < |idle|
    ensures |Newer(s, idle[j])| <= j
  {
    forall u | u in Newer(s, idle[j]) ensures u in SetOf(idle[..j]) {
      var k :| 0 <= k < |idle| && idle[k] == u;
      assert k < j;
      assert idle[..j][k] == u;
    }
    PrefixSize(idle, j);
    SubsetSize(Newer(s, idle[j]), SetOf(idle[..j]));
  }

  lemma SortedMore(s: State, idle: seq<Tenant>, rest: set<Tenant>, t: Tenant)
    requires NewestFirst(s, idle) && t in rest && t in s.tenants && t !in idle
    requires forall u, v :: u in idle && v in rest ==> v in s.tenants && s.tenants[u].lastUsed >= s.tenants[v].lastUsed
    ensures NewestFirst(s, idle + [t])
  {
    assert forall i :: 0 <= i < |idle| ==> idle[i] in idle;
  }
}
