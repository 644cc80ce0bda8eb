/** What every reachable state of the dispatcher keeps. */
module DispatchSafety {
  import opened Calendar
  import opened Dispatch

  // ----- ready and the queues -----

  /** A tenant stands in ready at most once, exactly when isReady, and only with messages. */
  ghost predicate Standing(s: State) {
    && (forall i, j :: 0 <= i < j < |s.ready| ==> s.ready[i] != s.ready[j])
    && (forall t :: t in s.ready <==> t in s.tenants && s.tenants[t].isReady)
    && (forall t :: t in s.tenants && s.tenants[t].isReady ==> s.tenants[t].queue != [])
  }

  /** Until the context ends, a tenant with messages stands in ready or is busy. */
  ghost predicate Served(s: State) {
    !s.ended ==> forall t :: t in s.tenants && s.tenants[t].queue != [] ==> s.tenants[t].isReady || s.tenants[t].busy
  }

  /** What a lane may rely on about the tenants it holds. */
  predicate LaneOk(s: State, l: Lane) {
    match l
    case Reserving(t) => t in s.tenants && !s.tenants[t].isReady && s.tenants[t].queue != [] && Fit(s, s.tenants[t])
    case AsleepCap(t) => t in s.tenants && !s.tenants[t].isReady && s.tenants[t].queue != [] && s.tenants[t].executor.None?
    case ClosingVictim(t, v) => t in s.tenants && !s.tenants[t].isReady && s.tenants[t].queue != [] && s.tenants[t].executor.None? && Ending(s, v)
    case Running(t, e, _) => t in s.tenants && !s.tenants[t].isReady && s.tenants[t].executor == Some(e) && e !in s.closes
    case _ => true
  }

  /** An executor of the queue, if any, is not closed. */
  predicate Fit(s: State, q: TenantQueue) {
    q.executor.Some? ==> q.executor.value !in s.closes
  }

  /** The executor of the tenant is being closed. */
  predicate Ending(s: State, t: Tenant) {
    t in s.tenants && s.tenants[t].executor.Some? && s.tenants[t].executor.value in s.closes
  }

  /** A busy tenant has exactly one owner: a lane that holds it or a closer of the janitor. */
  ghost predicate Owned(s: State) {
    && (forall t :: t in s.owners <==> t in s.tenants && s.tenants[t].busy)
    && (forall t :: t in s.owners && s.owners[t].ByLane? ==> s.owners[t].lane < |s.lanes| && t in Held(s.lanes[s.owners[t].lane]))
    && (forall i, t :: 0 <= i < |s.lanes| && t in Held(s.lanes[i]) ==> t in s.owners && s.owners[t] == ByLane(i))
    && (forall t :: t in s.closers <==> t in s.owners && s.owners[t] == ByJanitor)
  }

  ghost predicate LanesOk(s: State) {
    && (forall i :: 0 <= i < |s.lanes| ==> LaneOk(s, s.lanes[i]))
    && (forall t :: t in s.closers ==> Ending(s, t))
    && (forall t :: t in s.tenants && !s.tenants[t].busy ==> Fit(s, s.tenants[t]))
  }

  // ----- executors -----

  function Opened(s: State): set<Tenant> {
    set t | t in s.tenants && s.tenants[t].executor.Some?
  }

  /** open counts the executors that exist, never more than maxOpen. */
  ghost predicate Counted(c: Config, s: State) {
    s.open == |Opened(s)| <= c.maxOpen
  }

  ghost predicate NoDup(s: seq<ExecutorId>) {
    forall i, j :: 0 <= i < j < |s| ==> s[i] != s[j]
  }

  /** Every executor made belongs to one tenant or was closed, and none was closed twice. */
  ghost predicate Lifetimes(s: State) {
    && NoDup(s.closes)
    && (forall e :: e in s.closes ==> e < s.created)
    && (forall t :: t in s.tenants && s.tenants[t].executor.Some? ==> s.tenants[t].executor.value < s.created)
    && (forall t, u :: t in s.tenants && u in s.tenants && s.tenants[t].executor.Some? && s.tenants[t].executor == s.tenants[u].executor ==> t == u)
    && (forall e :: 0 <= e < s.created ==> e in s.closes || exists t :: t in s.tenants && s.tenants[t].executor == Some(e))
  }

  // ----- order of the messages -----

  /** The batches taken so far and the queue are the messages accepted, in order. */
  ghost predicate InOrder(s: State) {
    forall t :: MessagesOf(s.taken, t) + QueueOf(s, t) == MessagesOf(s.accepted, t)
  }

  // ----- wakeups -----

  function Availables(s: State): set<Tenant> {
    set t | t in s.ready && Available(s, t)
  }

  function Woken(s: State): set<nat> {
    set i | 0 <= i < |s.lanes| && s.lanes[i] == WokenWork
  }

  /** While a lane sleeps on work, the available tenants are at most as many as the lanes woken. */
  ghost predicate NoLostWork(s: State) {
    !s.Closed() && (exists i :: 0 <= i < |s.lanes| && s.lanes[i] == AsleepWork) ==> |Availables(s)| <= |Woken(s)|
  }

  ghost predicate SleepsAtCap(s: State) {
    exists i :: 0 <= i < |s.lanes| && s.lanes[i].AsleepCap?
  }

  ghost predicate Announced(s: State) {
    forall i :: 0 <= i < |s.lanes| ==> s.lanes[i] != Announcing
  }

  /** A lane asleep at the cap with no Broadcast to come: every executor is running or being closed. */
  ghost predicate NoLostCap(c: Config, s: State) {
    SleepsAtCap(s) && Announced(s) ==> s.open >= c.maxOpen && forall t :: !Idle(s, t)
  }

  /** Once closed is set and broadcast, no lane sleeps; before the context ends, no lane is done. */
  ghost predicate StopHeard(s: State) {
    && (s.Closed() ==> s.ended)
    && (!s.ended ==> forall i :: 0 <= i < |s.lanes| ==> s.lanes[i] != Done)
    && (s.stopper == WorkSent || s.stopper == AllSent ==> forall i :: 0 <= i < |s.lanes| ==> s.lanes[i] != AsleepWork)
    && (s.stopper == AllSent ==> !SleepsAtCap(s))
  }

  ghost predicate Inv(c: Config, s: State) {
    && |s.lanes| == c.parallel
    && Standing(s) && Served(s)
    && Owned(s) && LanesOk(s)
    && Counted(c, s) && Lifetimes(s)
    && InOrder(s)
    && NoLostWork(s) && NoLostCap(c, s) && StopHeard(s)
  }

  lemma InitialInv(c: Config)
    requires c.Valid()
    ensures Inv(c, Initial(c))
  {
    var s := Initial(c);
    assert Opened(s) == {};
    assert Availables(s) == {};
  }

  // ----- steps that touch few tenants -----

  /** Only the tenants of ts change. */
  ghost predicate Apart(s: State, s': State, ts: set<Tenant>) {
    && (forall t :: t !in ts ==> (t in s'.tenants <==> t in s.tenants))
    && (forall t :: t !in ts && t in s.tenants ==> s'.tenants[t] == s.tenants[t])
  }

  /** A lane other than the one that makes the step: unchanged, or woken. */
  predicate Kept(l: Lane, l': Lane) {
    l' == l || l' == RousedCap(l) || l' == RousedWork(l)
  }

  ghost predicate LanesKept(s: State, s': State, i: nat) {
    |s'.lanes| == |s.lanes| && forall j :: 0 <= j < |s.lanes| && j != i ==> Kept(s.lanes[j], s'.lanes[j])
  }

  ghost predicate StandOk(s: State, t: Tenant) {
    && (t in s.ready <==> t in s.tenants && s.tenants[t].isReady)
    && (t in s.tenants && s.tenants[t].isReady ==> s.tenants[t].queue != [])
  }

  lemma StandingStep(s: State, s': State, ts: set<Tenant>)
    requires Standing(s) && Apart(s, s', ts)
    requires forall i, j :: 0 <= i < j < |s'.ready| ==> s'.ready[i] != s'.ready[j]
    requires forall t :: t !in ts ==> (t in s'.ready <==> t in s.ready)
    requires forall t :: t in ts ==> StandOk(s', t)
    ensures Standing(s')
  {
    forall t ensures StandOk(s', t) {
    }
    assert forall t :: StandOk(s', t) ==> (t in s'.ready <==> t in s'.tenants && s'.tenants[t].isReady);
  }

  /** The owner of the tenant, where it changed: none, lane i, or the janitor. */
  ghost predicate OwnerOk(s: State, i: nat, t: Tenant)
    requires i < |s.lanes|
  {
    && (t in s.owners <==> t in s.tenants && s.tenants[t].busy)
    && (t in s.owners ==> s.owners[t] == ByLane(i) || s.owners[t] == ByJanitor)
    && (t in Held(s.lanes[i]) <==> t in s.owners && s.owners[t] == ByLane(i))
    && (t in s.closers <==> t in s.owners && s.owners[t] == ByJanitor)
  }

  ghost predicate OwnerKept(s: State, s': State, t: Tenant) {
    && (t in s'.owners <==> t in s.owners)
    && (t in s.owners ==> s'.owners[t] == s.owners[t])
    && (t in s'.closers <==> t in s.closers)
  }

  /** No lane but i holds a tenant of ts. */
  ghost predicate NotElsewhere(s: State, i: nat, ts: set<Tenant>) {
    forall t :: t in ts && t in s.owners ==> s.owners[t] == ByLane(i) || s.owners[t] == ByJanitor
  }

  /** What a step that touches only the tenants of ts in lane i does to owners. */
  ghost predicate OwnersMove(s: State, s': State, i: nat, ts: set<Tenant>) {
    && LanesKept(s, s', i) && i < |s.lanes| && NotElsewhere(s, i, ts)
    && (forall t :: t !in ts ==> (t in Held(s'.lanes[i]) <==> t in Held(s.lanes[i])))
    && (forall t :: t !in ts ==> OwnerKept(s, s', t))
    && (forall t :: t in ts ==> OwnerOk(s', i, t))
  }

  lemma OwnedLanes(s: State, s': State, i: nat, ts: set<Tenant>, j: nat, t: Tenant)
    requires Owned(s) && OwnersMove(s, s', i, ts) && j < |s'.lanes| && t in Held(s'.lanes[j])
    ensures t in s'.owners && s'.owners[t] == ByLane(j)
  {
    assert t !in ts ==> OwnerKept(s, s', t);
    assert t in ts ==> OwnerOk(s', i, t);
    assert j != i ==> Kept(s.lanes[j], s'.lanes[j]);
  }

  lemma OwnedHeld(s: State, s': State, i: nat, ts: set<Tenant>, t: Tenant)
    requires Owned(s) && OwnersMove(s, s', i, ts) && t in s'.owners && s'.owners[t].ByLane?
    ensures s'.owners[t].lane < |s'.lanes| && t in Held(s'.lanes[s'.owners[t].lane])
  {
    var j := s'.owners[t].lane;
    assert t !in ts ==> OwnerKept(s, s', t);
    assert t in ts ==> OwnerOk(s', i, t);
    assert j != i && t !in ts ==> Kept(s.lanes[j], s'.lanes[j]);
  }

  lemma OwnedBusy(s: State, s': State, i: nat, ts: set<Tenant>, t: Tenant)
    requires Owned(s) && Apart(s, s', ts) && OwnersMove(s, s', i, ts)
    ensures t in s'.owners <==> t in s'.tenants && s'.tenants[t].busy
    ensures t in s'.closers <==> t in s'.owners && s'.owners[t] == ByJanitor
  {
    assert t !in ts ==> OwnerKept(s, s', t);
    assert t in ts ==> OwnerOk(s', i, t);
  }

  lemma OwnedStep(s: State, s': State, i: nat, ts: set<Tenant>)
    requires Owned(s) && Apart(s, s', ts) && LanesKept(s, s', i) && i < |s.lanes| && NotElsewhere(s, i, ts)
    requires forall t :: t !in ts ==> (t in Held(s'.lanes[i]) <==> t in Held(s.lanes[i]))
    requires forall t :: t !in ts ==> OwnerKept(s, s', t)
    requires forall t :: t in ts ==> OwnerOk(s', i, t)
    ensures Owned(s')
  {
    assert OwnersMove(s, s', i, ts);
    forall j, t | 0 <= j < |s'.lanes| && t in Held(s'.lanes[j]) ensures t in s'.owners && s'.owners[t] == ByLane(j) {
      OwnedLanes(s, s', i, ts, j, t);
    }
    forall t ensures t in s'.owners <==> t in s'.tenants && s'.tenants[t].busy {
      OwnedBusy(s, s', i, ts, t);
    }
    forall t ensures t in s'.closers <==> t in s'.owners && s'.owners[t] == ByJanitor {
      OwnedBusy(s, s', i, ts, t);
    }
    forall t | t in s'.owners && s'.owners[t].ByLane? ensures s'.owners[t].lane < |s'.lanes| && t in Held(s'.lanes[s'.owners[t].lane]) {
      OwnedHeld(s, s', i, ts, t);
    }
  }

  /** No executor outside of ts starts to close. */
  ghost predicate ClosesWithin(s: State, s': State, ts: set<Tenant>) {
    forall t :: t !in ts && t in s.tenants && s.tenants[t].executor.Some? ==> (s.tenants[t].executor.value in s'.closes <==> s.tenants[t].executor.value in s.closes)
  }

  ghost predicate TenantOk(s: State, t: Tenant) {
    && (t in s.closers ==> Ending(s, t))
    && (t in s.tenants && !s.tenants[t].busy ==> Fit(s, s.tenants[t]))
  }

  lemma LaneOkKept(s: State, s': State, ts: set<Tenant>, l: Lane, l': Lane)
    requires LaneOk(s, l) && Kept(l, l') && Apart(s, s', ts) && ClosesWithin(s, s', ts) && Held(l) !! ts
    ensures LaneOk(s', l')
  {
  }

  lemma LanesOkStep(s: State, s': State, i: nat, ts: set<Tenant>)
    requires LanesOk(s) && Owned(s) && Apart(s, s', ts) && ClosesWithin(s, s', ts) && LanesKept(s, s', i) && i < |s.lanes| && NotElsewhere(s, i, ts)
    requires LaneOk(s', s'.lanes[i])
    requires forall t :: t !in ts ==> (t in s'.closers <==> t in s.closers)
    requires forall t :: t in ts ==> TenantOk(s', t)
    ensures LanesOk(s')
  {
    forall j | 0 <= j < |s'.lanes| ensures LaneOk(s', s'.lanes[j]) {
      if j != i {
        assert forall t :: t in Held(s.lanes[j]) ==> t in s.owners && s.owners[t] == ByLane(j);
        LaneOkKept(s, s', ts, s.lanes[j], s'.lanes[j]);
      }
    }
    forall t ensures TenantOk(s', t) {
      if t !in ts {
        assert TenantOk(s, t);
      }
    }
    assert forall t :: t in s'.closers && TenantOk(s', t) ==> Ending(s', t);
    assert forall t :: t in s'.tenants && !s'.tenants[t].busy && TenantOk(s', t) ==> Fit(s', s'.tenants[t]);
  }

  lemma InOrderStep(s: State, s': State, t: Tenant)
    requires InOrder(s) && Apart(s, s', {t})
    requires forall u :: u != t ==> MessagesOf(s'.taken, u) == MessagesOf(s.taken, u) && MessagesOf(s'.accepted, u) == MessagesOf(s.accepted, u)
    requires MessagesOf(s'.taken, t) + QueueOf(s', t) == MessagesOf(s'.accepted, t)
    ensures InOrder(s')
  {
    forall u ensures MessagesOf(s'.taken, u) + QueueOf(s', u) == MessagesOf(s'.accepted, u) {
      if u != t {
        assert MessagesOf(s.taken, u) + QueueOf(s, u) == MessagesOf(s.accepted, u);
        assert QueueOf(s', u) == QueueOf(s, u);
      }
    }
  }
}
