/** When the executor of a tenant was used last: over every run the time the dispatcher keeps is that of the
    last finished batch, which the janitor and the choice of a victim go by. */
module DispatchUsage {
  import opened Calendar
  import opened Dispatch
  import opened Dispatcher

  /** The time at which the event finishes a batch of the tenant. */
  function FinishAt(s: State, e: Event, t: Tenant): Option<int> {
    if e.Finishes? && e.lane < |s.lanes| && s.lanes[e.lane].Running? && s.lanes[e.lane].tenant == t then Some(e.now) else None
  }

  /** The time of the last batch of the tenant finished before state n since the tenant is known, 0 without
      any. */
  function LastFinish(states: seq<State>, events: seq<Event>, n: nat, t: Tenant): int
    requires n < |states| == |events| + 1
  {
    if n == 0 || t !in states[n - 1].tenants then 0
    else
      var f := FinishAt(states[n - 1], events[n - 1], t);
      if f.Some? then f.value else LastFinish(states, events, n - 1, t)
  }

  ghost predicate UsedAfter(s: State, s': State, e: Event, t: Tenant) {
    t in s'.tenants ==> s'.tenants[t].lastUsed == UsedBefore(s, e, t)
  }

  function UsedBefore(s: State, e: Event, t: Tenant): int {
    if t !in s.tenants then 0 else if FinishAt(s, e, t).Some? then FinishAt(s, e, t).value else s.tenants[t].lastUsed
  }

  /** Marking a tenant ready, closing an executor and forgetting a tenant leave the times. */
  lemma SettleUsed(s: State, u: Tenant, w: Option<nat>, t: Tenant)
    requires u in s.tenants
    ensures t in MarkReady(s, u, w).tenants ==> t in s.tenants && MarkReady(s, u, w).tenants[t].lastUsed == s.tenants[t].lastUsed
    ensures t in Settle(s, u, w).tenants ==> t in s.tenants && Settle(s, u, w).tenants[t].lastUsed == s.tenants[t].lastUsed
  {
  }

  lemma MarkClosedUsed(s: State, u: Tenant, w: Option<nat>, t: Tenant)
    requires u in s.tenants
    ensures t in MarkClosed(s, u, w).tenants ==> t in s.tenants && MarkClosed(s, u, w).tenants[t].lastUsed == s.tenants[t].lastUsed
  {
    SettleUsed(Shed(s.(lanes := RouseCap(s.lanes)), u), u, w, t);
  }

  lemma SubmitUsed(s: State, u: Tenant, m: Msg, w: Option<nat>, t: Tenant)
    ensures UsedAfter(s, Submit(s, u, m, w), Submits(u, m, w), t)
  {
    if !s.Closed() {
      SettleUsed(Enqueued(s, u, m), u, w, t);
    }
  }

  lemma TakeUsed(s: State, i: nat, t: Tenant)
    requires Enabled(s, Takes(i))
    ensures UsedAfter(s, Take(s, i), Takes(i), t)
  {
  }

  lemma ReserveUsed(c: Config, s: State, i: nat, v: Option<Tenant>, t: Tenant)
    requires Enabled(s, Reserves(i, v))
    ensures UsedAfter(s, Reserve(c, s, i, v), Reserves(i, v), t)
  {
  }

  lemma CloseUsed(c: Config, s: State, e: Event, t: Tenant)
    requires Enabled(s, e) && (e.VictimCloses? || e.IdleCloses? || e.ClosesIdle? || e.ClosesAll?)
    ensures UsedAfter(s, Apply(c, s, e), e, t)
  {
    match e
    case VictimCloses(i, w) => MarkClosedUsed(s.(lanes := s.lanes[i := Reserving(s.lanes[i].tenant)]), s.lanes[i].victim, w, t);
    case IdleCloses(u, w) => MarkClosedUsed(s.(closers := s.closers - {u}), u, w, t);
    case _ =>
  }

  lemma FinishUsed(c: Config, s: State, i: nat, now: int, w: Option<nat>, t: Tenant)
    requires Enabled(s, Finishes(i, now, w))
    ensures UsedAfter(s, Apply(c, s, Finishes(i, now, w)), Finishes(i, now, w), t)
  {
    SettleUsed(Finished(s, i, now), s.lanes[i].tenant, w, t);
  }

  /** One step: a new tenant was never used, a finished batch sets the time, nothing else does. */
  lemma StepUsed(c: Config, s: State, e: Event, t: Tenant)
    requires Enabled(s, e)
    ensures UsedAfter(s, Apply(c, s, e), e, t)
  {
    if e.Submits? {
      SubmitUsed(s, e.tenant, e.msg, e.woken, t);
    } else if e.Takes? {
      TakeUsed(s, e.lane, t);
    } else if e.Reserves? {
      ReserveUsed(c, s, e.lane, e.victim, t);
    } else if e.VictimCloses? || e.IdleCloses? || e.ClosesIdle? || e.ClosesAll? {
      CloseUsed(c, s, e, t);
    } else if e.Finishes? {
      FinishUsed(c, s, e.lane, e.now, e.woken, t);
    }
  }

  lemma RunUsed(c: Config, states: seq<State>, events: seq<Event>, n: nat, t: Tenant)
    requires Run(c, states, events) && 0 < n < |states|
    ensures UsedAfter(states[n - 1], states[n], events[n - 1], t)
  {
    StepUsed(c, states[n - 1], events[n - 1], t);
  }

  lemma {:induction false} UsedSteps(states: seq<State>, events: seq<Event>, n: nat, t: Tenant)
    requires n < |states| == |events| + 1 && t !in states[0].tenants && t in states[n].tenants
    requires forall k :: 0 <= k < n ==> UsedAfter(states[k], states[k + 1], events[k], t)
    ensures states[n].tenants[t].lastUsed == LastFinish(states, events, n, t)
  {
    if n > 0 {
      assert UsedAfter(states[n - 1], states[n - 1 + 1], events[n - 1], t);
      if t in states[n - 1].tenants {
        UsedSteps(states, events, n - 1, t);
      }
    }
  }

  /** Over every run lastUsed is the time of the last finished batch. */
  lemma LastUsed(c: Config, states: seq<State>, events: seq<Event>, n: nat, t: Tenant)
    requires Run(c, states, events) && n < |states| && t in states[n].tenants
    ensures states[n].tenants[t].lastUsed == LastFinish(states, events, n, t)
  {
    forall k | 0 <= k < n ensures UsedAfter(states[k], states[k + 1], events[k], t) {
      RunUsed(c, states, events, k + 1, t);
    }
    UsedSteps(states, events, n, t);
  }

  /** An executor the janitor closes has finished no batch for the minimum time or the timeout. */
  lemma JanitorWaits(c: Config, states: seq<State>, events: seq<Event>, n: nat, closing: seq<Tenant>, parallel: nat, now: int, timeout: int, t: Tenant)
    requires Run(c, states, events) && n < |states| && t in closing
    requires ClosesOldest(states[n], closing, parallel, now, timeout)
    ensures now - LastFinish(states, events, n, t) >= MIN_IDLE_CLOSE || now - LastFinish(states, events, n, t) >= timeout
  {
    LastUsed(c, states, events, n, t);
  }
}
