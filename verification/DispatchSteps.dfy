/** Every step of the dispatcher keeps the invariant. */
module DispatchSteps {
  import opened Calendar
  import opened Dispatch
  import opened DispatchSafety
  import opened Seqs

  // ----- wakeups: the step gives no more work, or signals -----

  ghost predicate NoNewSleeper(s: State, s': State) {
    |s'.lanes| == |s.lanes| && forall j :: 0 <= j < |s.lanes| && s'.lanes[j] == AsleepWork ==> s.lanes[j] == AsleepWork
  }

  ghost predicate StillWoken(s: State, s': State) {
    |s'.lanes| == |s.lanes| && forall j :: 0 <= j < |s.lanes| && s.lanes[j] == WokenWork ==> s'.lanes[j] == WokenWork
  }

  lemma WorkKept(s: State, s': State)
    requires NoLostWork(s) && NoNewSleeper(s, s') && StillWoken(s, s') && (s.Closed() ==> s'.Closed())
    requires forall t :: t in s'.ready && Available(s', t) ==> t in s.ready && Available(s, t)
    ensures NoLostWork(s')
  {
    SubsetSize(Availables(s'), Availables(s));
    SubsetSize(Woken(s), Woken(s'));
  }

  /** One more tenant is available, and work was signalled. */
  lemma WorkSignalled(s: State, s': State, t: Tenant, w: Option<nat>)
    requires NoLostWork(s) && NoNewSleeper(s, s') && StillWoken(s, s') && (s.Closed() ==> s'.Closed()) && MayWake(s.lanes, w)
    requires forall u :: u in s'.ready && Available(s', u) ==> u == t || (u in s.ready && Available(s, u))
    requires w.Some? ==> s'.lanes[w.value] == WokenWork
    ensures NoLostWork(s')
  {
    if w.Some? {
      assert s.lanes[w.value] == AsleepWork;
      SubsetSize(Availables(s'), Availables(s) + {t});
      SubsetSize(Woken(s) + {w.value}, Woken(s'));
    }
  }

  lemma CapKept(c: Config, s: State, s': State)
    requires NoLostCap(c, s) && |s'.lanes| == |s.lanes|
    requires forall j :: 0 <= j < |s.lanes| && s'.lanes[j].AsleepCap? ==> s.lanes[j].AsleepCap?
    requires forall j :: 0 <= j < |s.lanes| && s.lanes[j] == Announcing ==> s'.lanes[j] == Announcing
    requires s.open <= s'.open
    requires forall t :: Idle(s', t) ==> Idle(s, t)
    ensures NoLostCap(c, s')
  {
    if SleepsAtCap(s') && Announced(s') {
      assert SleepsAtCap(s) && Announced(s);
      assert forall t :: !Idle(s, t);
    }
  }

  lemma OpenedKept(c: Config, s: State, s': State)
    requires Counted(c, s) && s'.open == s.open
    requires forall t :: (t in s'.tenants && s'.tenants[t].executor.Some?) <==> (t in s.tenants && s.tenants[t].executor.Some?)
    ensures Counted(c, s')
  {
    assert Opened(s') == Opened(s);
  }

  ghost predicate SameExecutors(s: State, s': State) {
    && s'.created == s.created
    && (forall t, e :: (t in s'.tenants && s'.tenants[t].executor == Some(e)) <==> (t in s.tenants && s.tenants[t].executor == Some(e)))
  }

  lemma LifetimesKept(s: State, s': State)
    requires Lifetimes(s) && SameExecutors(s, s') && s'.closes == s.closes
    ensures Lifetimes(s')
  {
    forall e | 0 <= e < s'.created && e !in s'.closes ensures exists t :: t in s'.tenants && s'.tenants[t].executor == Some(e) {
      var t :| t in s.tenants && s.tenants[t].executor == Some(e);
      assert t in s'.tenants;
    }
    forall t, u | t in s'.tenants && u in s'.tenants && s'.tenants[t].executor.Some? && s'.tenants[t].executor == s'.tenants[u].executor ensures t == u {
      var e := s'.tenants[t].executor.value;
      assert s.tenants[t].executor == Some(e) && s.tenants[u].executor == Some(e);
    }
  }

  // ----- markReady -----

  ghost predicate ServedBut(s: State, t: Tenant) {
    !s.ended ==> forall u :: u != t && u in s.tenants && s.tenants[u].queue != [] ==> s.tenants[u].isReady || s.tenants[u].busy
  }

  /** The invariant, but t may have messages without standing in ready. */
  ghost predicate Almost(c: Config, s: State, t: Tenant) {
    && |s.lanes| == c.parallel
    && Standing(s) && ServedBut(s, t)
    && Owned(s) && LanesOk(s)
    && Counted(c, s) && Lifetimes(s)
    && InOrder(s)
    && NoLostCap(c, s) && StopHeard(s)
  }

  function Stand(s: State, t: Tenant, w: Option<nat>): State
    requires t in s.tenants
  {
    s.(tenants := s.tenants[t := s.tenants[t].(isReady := true)], ready := s.ready + [t], lanes := Wake(s.lanes, w))
  }

  lemma StandStanding(s: State, t: Tenant, w: Option<nat>)
    requires Standing(s) && t in s.tenants && !s.tenants[t].isReady && s.tenants[t].queue != []
    ensures Standing(Stand(s, t, w))
  {
    StandingStep(s, Stand(s, t, w), {t});
  }

  lemma StandOwned(s: State, t: Tenant, w: Option<nat>)
    requires Owned(s) && LanesOk(s) && t in s.tenants && !s.tenants[t].busy && MayWake(s.lanes, w) && s.lanes != []
    ensures Owned(Stand(s, t, w)) && LanesOk(Stand(s, t, w))
  {
    var s' := Stand(s, t, w);
    assert OwnerOk(s', 0, t) by {
      assert t !in s.owners;
    }
    OwnedStep(s, s', 0, {t});
    LaneOkKept(s, s', {t}, s.lanes[0], s'.lanes[0]);
    assert TenantOk(s', t);
    LanesOkStep(s, s', 0, {t});
  }

  lemma StandRest(c: Config, s: State, t: Tenant, w: Option<nat>)
    requires Almost(c, s, t) && NoLostWork(s) && MayWake(s.lanes, w) && t in s.tenants && WillStand(s, t)
    ensures var s' := Stand(s, t, w); Counted(c, s') && Lifetimes(s') && InOrder(s')
  {
    var s' := Stand(s, t, w);
    OpenedKept(c, s, s');
    LifetimesKept(s, s');
    assert MessagesOf(s.taken, t) + QueueOf(s, t) == MessagesOf(s.accepted, t);
    InOrderStep(s, s', t);
  }

  lemma StandWakes(c: Config, s: State, t: Tenant, w: Option<nat>)
    requires NoLostWork(s) && NoLostCap(c, s) && StopHeard(s) && MayWake(s.lanes, w) && t in s.tenants
    ensures var s' := Stand(s, t, w); NoLostWork(s') && NoLostCap(c, s') && StopHeard(s')
  {
    var s' := Stand(s, t, w);
    WorkSignalled(s, s', t, w);
    CapKept(c, s, s');
  }

  lemma MarkReadyKeeps(c: Config, s: State, t: Tenant, w: Option<nat>)
    requires c.Valid() && Almost(c, s, t) && NoLostWork(s) && MayWake(s.lanes, w) && t in s.tenants
    ensures Inv(c, MarkReady(s, t, w))
  {
    if WillStand(s, t) {
      assert MarkReady(s, t, w) == Stand(s, t, w);
      StandStanding(s, t, w);
      StandOwned(s, t, w);
      StandRest(c, s, t, w);
      StandWakes(c, s, t, w);
    }
  }

  // ----- Submit -----

  lemma EnqueuedLists(c: Config, s: State, t: Tenant, m: Msg)
    requires Inv(c, s)
    ensures var s' := Enqueued(s, t, m); Standing(s') && ServedBut(s', t) && InOrder(s')
  {
    assert StandOk(s, t);
    StandingStep(s, Enqueued(s, t, m), {t});
    EnqueuedInOrder(s, t, m);
  }

  lemma EnqueuedInOrder(s: State, t: Tenant, m: Msg)
    requires InOrder(s)
    ensures InOrder(Enqueued(s, t, m))
  {
    var taken, queue := MessagesOf(s.taken, t), QueueOf(s, t);
    assert taken + queue == MessagesOf(s.accepted, t);
    assert taken + (queue + [m]) == (taken + queue) + [m];
    InOrderStep(s, Enqueued(s, t, m), t);
  }

  lemma EnqueuedOwned(s: State, t: Tenant, m: Msg)
    requires Owned(s)
    ensures Owned(Enqueued(s, t, m))
  {
  }

  lemma LaneOkGrown(s: State, t: Tenant, m: Msg, l: Lane)
    requires LaneOk(s, l)
    ensures LaneOk(Enqueued(s, t, m), l)
  {
  }

  lemma EnqueuedLanesOk(s: State, t: Tenant, m: Msg)
    requires LanesOk(s)
    ensures LanesOk(Enqueued(s, t, m))
  {
    var s' := Enqueued(s, t, m);
    forall j | 0 <= j < |s.lanes| ensures LaneOk(s', s'.lanes[j]) {
      LaneOkGrown(s, t, m, s.lanes[j]);
    }
    forall u | u in s'.closers ensures Ending(s', u) {
      assert Ending(s, u);
    }
  }

  lemma EnqueuedRest(c: Config, s: State, t: Tenant, m: Msg)
    requires Inv(c, s)
    ensures var s' := Enqueued(s, t, m); Counted(c, s') && Lifetimes(s') && NoLostWork(s') && NoLostCap(c, s') && StopHeard(s')
  {
    var s' := Enqueued(s, t, m);
    OpenedKept(c, s, s');
    LifetimesKept(s, s');
    WorkKept(s, s');
    CapKept(c, s, s');
  }

  lemma SubmitKeeps(c: Config, s: State, t: Tenant, m: Msg, w: Option<nat>)
    requires c.Valid() && Inv(c, s) && MayWake(s.lanes, w)
    ensures Inv(c, Submit(s, t, m, w))
  {
    if !s.Closed() {
      EnqueuedLists(c, s, t, m);
      EnqueuedOwned(s, t, m);
      EnqueuedLanesOk(s, t, m);
      EnqueuedRest(c, s, t, m);
      MarkReadyKeeps(c, Enqueued(s, t, m), t, w);
    }
  }

  // ----- a batch is done -----

  lemma FinishedOwned(c: Config, s: State, i: nat, now: int)
    requires Inv(c, s) && i < |s.lanes| && s.lanes[i].Running? && s.lanes[i].tenant in s.tenants
    ensures Owned(Finished(s, i, now)) && LanesOk(Finished(s, i, now))
  {
    var t := s.lanes[i].tenant;
    var s' := Finished(s, i, now);
    assert t in Held(s.lanes[i]);
    assert LaneOk(s, s.lanes[i]);
    assert OwnerOk(s', i, t) && TenantOk(s', t);
    OwnedStep(s, s', i, {t});
    LanesOkStep(s, s', i, {t});
  }

  lemma FinishedLists(c: Config, s: State, i: nat, now: int)
    requires Inv(c, s) && i < |s.lanes| && s.lanes[i].Running? && s.lanes[i].tenant in s.tenants
    ensures var s' := Finished(s, i, now); Standing(s') && ServedBut(s', s.lanes[i].tenant) && InOrder(s')
  {
    var t := s.lanes[i].tenant;
    var s' := Finished(s, i, now);
    assert StandOk(s, t);
    StandingStep(s, s', {t});
    assert MessagesOf(s.taken, t) + QueueOf(s, t) == MessagesOf(s.accepted, t);
    InOrderStep(s, s', t);
  }

  lemma FinishedExecutors(c: Config, s: State, i: nat, now: int)
    requires Counted(c, s) && Lifetimes(s) && i < |s.lanes| && s.lanes[i].Running? && s.lanes[i].tenant in s.tenants
    ensures var s' := Finished(s, i, now); Counted(c, s') && Lifetimes(s')
  {
    OpenedKept(c, s, Finished(s, i, now));
    LifetimesKept(s, Finished(s, i, now));
  }

  lemma FinishedWakes(c: Config, s: State, i: nat, now: int)
    requires Standing(s) && LanesOk(s) && NoLostWork(s) && NoLostCap(c, s) && StopHeard(s)
    requires i < |s.lanes| && s.lanes[i].Running? && s.lanes[i].tenant in s.tenants
    ensures var s' := Finished(s, i, now); NoLostWork(s') && NoLostCap(c, s') && StopHeard(s')
  {
    var s' := Finished(s, i, now);
    assert LaneOk(s, s.lanes[i]);
    assert StandOk(s, s.lanes[i].tenant);
    WorkKept(s, s');
    assert s'.lanes[i] == Announcing;
  }

  lemma FinishKeeps(c: Config, s: State, i: nat, now: int, w: Option<nat>)
    requires c.Valid() && Inv(c, s) && Enabled(s, Finishes(i, now, w))
    ensures Inv(c, MarkReady(Finished(s, i, now), s.lanes[i].tenant, w))
  {
    FinishedAlmost(c, s, i, now);
    FinishedSleepers(s, i, now, w);
    MarkReadyKeeps(c, Finished(s, i, now), s.lanes[i].tenant, w);
  }

  lemma FinishedSleepers(s: State, i: nat, now: int, w: Option<nat>)
    requires i < |s.lanes| && s.lanes[i].Running? && s.lanes[i].tenant in s.tenants && MayWake(s.lanes, w)
    ensures var s' := Finished(s, i, now); MayWake(s'.lanes, w) && s.lanes[i].tenant in s'.tenants
  {
  }

  lemma FinishedAlmost(c: Config, s: State, i: nat, now: int)
    requires Inv(c, s) && i < |s.lanes| && s.lanes[i].Running? && s.lanes[i].tenant in s.tenants
    ensures var s' := Finished(s, i, now); Almost(c, s', s.lanes[i].tenant) && NoLostWork(s')
  {
    FinishedOwned(c, s, i, now);
    FinishedLists(c, s, i, now);
    FinishedExecutors(c, s, i, now);
    FinishedWakes(c, s, i, now);
  }

  // ----- an executor is closed -----

  /** The executor of t was closed by lane i or the janitor, and every lane asleep at the cap is roused. */
  ghost predicate Sheds(s: State, s': State, i: nat, t: Tenant) {
    && i < |s.lanes| && t in s.tenants && LanesKept(s, s', i) && NotElsewhere(s, i, {t})
    && s' == Shed(s.(lanes := s'.lanes, closers := s'.closers), t)
    && s'.closers == s.closers - {t}
    && Held(s'.lanes[i]) == Held(s.lanes[i]) - {t}
    && NoNewSleeper(s, s') && StillWoken(s, s')
    && (forall j :: 0 <= j < |s.lanes| ==> !s'.lanes[j].AsleepCap?)
    && (s'.lanes[i] == Done ==> s.lanes[i] == Done)
  }

  lemma ShedsOwned(c: Config, s: State, s': State, i: nat, t: Tenant)
    requires Owned(s) && LanesOk(s) && Sheds(s, s', i, t) && LaneOk(s', s'.lanes[i])
    ensures Owned(s') && LanesOk(s')
  {
    assert OwnerOk(s', i, t) && TenantOk(s', t);
    OwnedStep(s, s', i, {t});
    LanesOkStep(s, s', i, {t});
  }

  lemma ShedsLists(s: State, s': State, i: nat, t: Tenant)
    requires Standing(s) && Served(s) && InOrder(s) && Sheds(s, s', i, t)
    ensures Standing(s') && ServedBut(s', t) && InOrder(s')
  {
    assert StandOk(s, t);
    StandingStep(s, s', {t});
    assert MessagesOf(s.taken, t) + QueueOf(s, t) == MessagesOf(s.accepted, t);
    InOrderStep(s, s', t);
  }

  lemma ShedsExecutors(c: Config, s: State, s': State, i: nat, t: Tenant)
    requires Counted(c, s) && Lifetimes(s) && Ending(s, t) && Sheds(s, s', i, t)
    ensures Counted(c, s') && Lifetimes(s')
  {
    assert Opened(s') == Opened(s) - {t};
    forall e | 0 <= e < s'.created && e !in s'.closes ensures exists u :: u in s'.tenants && s'.tenants[u].executor == Some(e) {
      var u :| u in s.tenants && s.tenants[u].executor == Some(e);
      assert u != t;
      assert s'.tenants[u].executor == Some(e);
    }
  }

  /** As NoLostWork, t not counted. */
  ghost predicate NoLostWorkBut(s: State, t: Tenant) {
    !s.Closed() && (exists i :: 0 <= i < |s.lanes| && s.lanes[i] == AsleepWork) ==> |Availables(s) - {t}| <= |Woken(s)|
  }

  lemma ShedsWork(s: State, s': State, i: nat, t: Tenant)
    requires NoLostWork(s) && Sheds(s, s', i, t)
    ensures NoLostWorkBut(s', t)
  {
    SubsetSize(Availables(s') - {t}, Availables(s));
    SubsetSize(Woken(s), Woken(s'));
  }

  lemma ShedsStop(c: Config, s: State, s': State, i: nat, t: Tenant)
    requires StopHeard(s) && Sheds(s, s', i, t)
    ensures NoLostCap(c, s') && StopHeard(s')
  {
    assert !SleepsAtCap(s');
  }

  lemma ShedsAlmost(c: Config, s: State, s': State, i: nat, t: Tenant)
    requires Inv(c, s) && Ending(s, t) && Sheds(s, s', i, t) && LaneOk(s', s'.lanes[i])
    ensures Almost(c, s', t) && NoLostWorkBut(s', t)
  {
    ShedsOwned(c, s, s', i, t);
    ShedsLists(s, s', i, t);
    ShedsExecutors(c, s, s', i, t);
    ShedsWork(s, s', i, t);
    ShedsStop(c, s, s', i, t);
  }

  /** The tenant keeps its place in ready; work is signalled. */
  lemma SettleWaiting(c: Config, s: State, t: Tenant, w: Option<nat>)
    requires c.Valid() && Almost(c, s, t) && NoLostWorkBut(s, t) && MayWake(s.lanes, w) && t in s.tenants && s.tenants[t].isReady
    ensures Inv(c, s.(lanes := Wake(s.lanes, w)))
  {
    var s' := s.(lanes := Wake(s.lanes, w));
    LaneOkKept(s, s', {}, s.lanes[0], s'.lanes[0]);
    LanesOnly(c, s, s', 0);
    SettleWakes(c, s, t, w);
  }

  lemma SettleWakes(c: Config, s: State, t: Tenant, w: Option<nat>)
    requires NoLostWorkBut(s, t) && NoLostCap(c, s) && StopHeard(s) && MayWake(s.lanes, w)
    ensures var s' := s.(lanes := Wake(s.lanes, w)); NoLostWork(s') && NoLostCap(c, s') && StopHeard(s')
  {
    var s' := s.(lanes := Wake(s.lanes, w));
    if w.Some? {
      assert s.lanes[w.value] == AsleepWork;
      SubsetSize(Availables(s'), (Availables(s) - {t}) + {t});
      SubsetSize(Woken(s) + {w.value}, Woken(s'));
    }
    CapKept(c, s, s');
  }

  /** Only lanes change, and none lets go of a tenant. */
  lemma LanesOnly(c: Config, s: State, s': State, i: nat)
    requires Standing(s) && Owned(s) && LanesOk(s) && Counted(c, s) && Lifetimes(s) && InOrder(s)
    requires s' == s.(lanes := s'.lanes) && LanesKept(s, s', i) && i < |s.lanes| && Held(s'.lanes[i]) == Held(s.lanes[i]) && LaneOk(s', s'.lanes[i])
    ensures Standing(s') && Owned(s') && LanesOk(s') && Counted(c, s') && Lifetimes(s') && InOrder(s')
  {
    LanesOnlyOwned(s, s', i);
    LanesOnlyRest(c, s, s');
  }

  lemma LanesOnlyOwned(s: State, s': State, i: nat)
    requires Owned(s) && LanesOk(s) && s' == s.(lanes := s'.lanes)
    requires LanesKept(s, s', i) && i < |s.lanes| && Held(s'.lanes[i]) == Held(s.lanes[i]) && LaneOk(s', s'.lanes[i])
    ensures Owned(s') && LanesOk(s')
  {
    OwnedStep(s, s', i, {});
    LanesOkStep(s, s', i, {});
  }

  lemma LanesOnlyRest(c: Config, s: State, s': State)
    requires Standing(s) && Counted(c, s) && Lifetimes(s) && InOrder(s) && s' == s.(lanes := s'.lanes)
    ensures Standing(s') && Counted(c, s') && Lifetimes(s') && InOrder(s')
  {
    OpenedKept(c, s, s');
    LifetimesKept(s, s');
    assert forall t :: QueueOf(s', t) == QueueOf(s, t);
  }

  /** The tenant is forgotten. */
  lemma SettleForgotten(c: Config, s: State, t: Tenant)
    requires c.Valid() && Almost(c, s, t) && t in s.tenants && s.tenants[t] == s.tenants[t].(queue := [], executor := None, busy := false, isReady := false)
    requires NoLostWork(s)
    ensures Inv(c, s.(tenants := s.tenants - {t}))
  {
    var s' := s.(tenants := s.tenants - {t});
    ForgottenOwned(s, s', t);
    ForgottenLists(s, s', t);
    ForgottenRest(c, s, s', t);
  }

  lemma ForgottenLists(s: State, s': State, t: Tenant)
    requires Standing(s) && InOrder(s) && t in s.tenants && !s.tenants[t].isReady && s.tenants[t].queue == [] && s' == s.(tenants := s.tenants - {t})
    ensures Standing(s') && InOrder(s')
  {
    StandingStep(s, s', {t});
    assert MessagesOf(s.taken, t) + QueueOf(s, t) == MessagesOf(s.accepted, t);
    InOrderStep(s, s', t);
  }

  lemma ForgottenRest(c: Config, s: State, s': State, t: Tenant)
    requires Counted(c, s) && Lifetimes(s) && NoLostWork(s) && NoLostCap(c, s)
    requires t in s.tenants && s.tenants[t].executor.None? && s' == s.(tenants := s.tenants - {t})
    ensures Counted(c, s') && Lifetimes(s') && NoLostWork(s') && NoLostCap(c, s')
  {
    OpenedKept(c, s, s');
    LifetimesKept(s, s');
    WorkKept(s, s');
    CapKept(c, s, s');
  }

  lemma ForgottenOwned(s: State, s': State, t: Tenant)
    requires s.lanes != [] && Owned(s) && LanesOk(s) && t in s.tenants && !s.tenants[t].busy && s' == s.(tenants := s.tenants - {t})
    ensures Owned(s') && LanesOk(s')
  {
    assert OwnerOk(s', 0, t) && TenantOk(s', t);
    OwnedStep(s, s', 0, {t});
    assert t !in Held(s.lanes[0]);
    LaneOkKept(s, s', {t}, s.lanes[0], s'.lanes[0]);
    LanesOkStep(s, s', 0, {t});
  }

  lemma SettleKeeps(c: Config, s: State, t: Tenant, w: Option<nat>)
    requires c.Valid() && Almost(c, s, t) && NoLostWorkBut(s, t) && MayWake(s.lanes, w)
    requires t in s.tenants && s.tenants[t].executor.None? && !s.tenants[t].busy
    ensures Inv(c, Settle(s, t, w))
  {
    if s.tenants[t].isReady {
      SettleWaiting(c, s, t, w);
    } else {
      assert StandOk(s, t);
      assert Availables(s) - {t} == Availables(s);
      if s.tenants[t].queue == [] {
        SettleForgotten(c, s, t);
      } else {
        MarkReadyKeeps(c, s, t, w);
      }
    }
  }

  function VictimShed(s: State, i: nat): State
    requires i < |s.lanes| && s.lanes[i].ClosingVictim? && s.lanes[i].victim in s.tenants
  {
    Shed(s.(lanes := RouseCap(s.lanes[i := Reserving(s.lanes[i].tenant)])), s.lanes[i].victim)
  }

  lemma VictimSheds(s: State, i: nat)
    requires Owned(s) && LanesOk(s) && i < |s.lanes| && s.lanes[i].ClosingVictim?
    ensures Ending(s, s.lanes[i].victim)
    ensures var s1 := VictimShed(s, i); Sheds(s, s1, i, s.lanes[i].victim) && LaneOk(s1, s1.lanes[i])
  {
    var l := s.lanes[i];
    assert LaneOk(s, l);
    assert l.victim in Held(l) && l.tenant in Held(l);
    assert l.victim != l.tenant;
  }

  lemma VictimShedAlmost(c: Config, s: State, i: nat)
    requires c.Valid() && Inv(c, s) && i < |s.lanes| && s.lanes[i].ClosingVictim?
    ensures s.lanes[i].victim in s.tenants
    ensures Almost(c, VictimShed(s, i), s.lanes[i].victim) && NoLostWorkBut(VictimShed(s, i), s.lanes[i].victim)
  {
    VictimSheds(s, i);
    ShedsAlmost(c, s, VictimShed(s, i), i, s.lanes[i].victim);
  }

  lemma VictimCloseKeeps(c: Config, s: State, i: nat, w: Option<nat>)
    requires c.Valid() && Inv(c, s) && Enabled(s, VictimCloses(i, w))
    ensures Inv(c, Apply(c, s, VictimCloses(i, w)))
  {
    VictimShedAlmost(c, s, i);
    VictimWakes(s, i, w);
    SettleKeeps(c, VictimShed(s, i), s.lanes[i].victim, w);
  }

  lemma VictimWakes(s: State, i: nat, w: Option<nat>)
    requires i < |s.lanes| && s.lanes[i].ClosingVictim? && s.lanes[i].victim in s.tenants && MayWake(s.lanes, w)
    ensures MayWake(VictimShed(s, i).lanes, w)
    ensures var t := s.lanes[i].victim; var q := VictimShed(s, i).tenants; t in q && q[t].executor.None? && !q[t].busy
  {
    WakeRoused(s.lanes[i := Reserving(s.lanes[i].tenant)], w);
  }

  lemma WakeRoused(lanes: seq<Lane>, w: Option<nat>)
    requires MayWake(lanes, w)
    ensures MayWake(RouseCap(lanes), w)
  {
  }

  function IdleShed(s: State, t: Tenant): State
    requires t in s.tenants
  {
    Shed(s.(lanes := RouseCap(s.lanes), closers := s.closers - {t}), t)
  }

  lemma IdleSheds(s: State, t: Tenant)
    requires Owned(s) && LanesOk(s) && t in s.closers && s.lanes != []
    ensures Ending(s, t)
    ensures var s1 := IdleShed(s, t); Sheds(s, s1, 0, t) && LaneOk(s1, s1.lanes[0])
  {
    var s1 := IdleShed(s, t);
    assert t in s.owners && s.owners[t] == ByJanitor;
    assert t !in Held(s.lanes[0]);
    LaneOkKept(s, s1, {t}, s.lanes[0], s1.lanes[0]);
  }

  lemma IdleCloseKeeps(c: Config, s: State, t: Tenant, w: Option<nat>)
    requires c.Valid() && Inv(c, s) && Enabled(s, IdleCloses(t, w))
    ensures Inv(c, Apply(c, s, IdleCloses(t, w)))
  {
    var s1 := IdleShed(s, t);
    IdleSheds(s, t);
    ShedsAlmost(c, s, s1, 0, t);
    WakeRoused(s.lanes, w);
    SettleKeeps(c, s1, t, w);
    assert Apply(c, s, IdleCloses(t, w)) == Settle(s1, t, w);
  }

  // ----- a lane looks for work -----

  /** Every tenant before the one nextReady finds is busy. */
  lemma {:induction false} NextReadySkips(s: State, ready: seq<Tenant>, k: nat)
    requires k < NextReady(s, ready)
    ensures !Available(s, ready[k])
  {
    if k > 0 {
      NextReadySkips(s, ready[1..], k - 1);
    }
  }

  lemma Removed(ready: seq<Tenant>, k: nat)
    requires k < |ready| && forall i, j :: 0 <= i < j < |ready| ==> ready[i] != ready[j]
    ensures var r := ready[..k] + ready[k + 1..];
            (forall i, j :: 0 <= i < j < |r| ==> r[i] != r[j]) && (forall t :: t in r <==> t in ready && t != ready[k])
  {
    var r := ready[..k] + ready[k + 1..];
    forall t | t in ready && t != ready[k] ensures t in r {
      var j :| 0 <= j < |ready| && ready[j] == t;
      assert r[if j < k then j else j - 1] == t;
    }
  }

  lemma TakenLists(c: Config, s: State, i: nat, k: nat)
    requires Standing(s) && Served(s) && InOrder(s) && (s.Closed() ==> s.ended)
    requires i < |s.lanes| && k < |s.ready| && Available(s, s.ready[k])
    ensures var s' := Taken(s, i, k); Standing(s') && Served(s') && InOrder(s')
  {
    var t := s.ready[k];
    var s' := Taken(s, i, k);
    Removed(s.ready, k);
    StandingStep(s, s', {t});
    assert MessagesOf(s.taken, t) + QueueOf(s, t) == MessagesOf(s.accepted, t);
    InOrderStep(s, s', t);
  }

  lemma TakenOwned(s: State, i: nat, k: nat)
    requires Standing(s) && Owned(s) && i < |s.lanes| && Held(s.lanes[i]) == {} && k < |s.ready| && Available(s, s.ready[k])
    ensures Owned(Taken(s, i, k))
  {
    if s.Closed() {
      TakenClosed(s, i, k);
    } else {
      TakenOpen(s, i, k);
    }
  }

  lemma TakenClosed(s: State, i: nat, k: nat)
    requires Owned(s) && i < |s.lanes| && Held(s.lanes[i]) == {} && k < |s.ready| && Available(s, s.ready[k]) && s.Closed()
    ensures Owned(Taken(s, i, k))
  {
    assert s.ready[k] !in s.owners;
    OwnedStep(s, Taken(s, i, k), i, {s.ready[k]});
  }

  lemma TakenOpen(s: State, i: nat, k: nat)
    requires Owned(s) && i < |s.lanes| && Held(s.lanes[i]) == {} && k < |s.ready| && Available(s, s.ready[k]) && !s.Closed()
    ensures Owned(Taken(s, i, k))
  {
    assert s.ready[k] !in s.owners;
    OwnedStep(s, Taken(s, i, k), i, {s.ready[k]});
  }

  lemma TakenLanesOk(s: State, i: nat, k: nat)
    requires Standing(s) && Owned(s) && LanesOk(s) && i < |s.lanes| && k < |s.ready| && Available(s, s.ready[k])
    ensures LanesOk(Taken(s, i, k))
  {
    var t := s.ready[k];
    var s' := Taken(s, i, k);
    assert StandOk(s, t);
    assert t !in s.owners;
    assert TenantOk(s', t);
    LanesOkStep(s, s', i, {t});
  }

  lemma TakenCounted(c: Config, s: State, i: nat, k: nat)
    requires Counted(c, s) && i < |s.lanes| && k < |s.ready| && Available(s, s.ready[k])
    ensures Counted(c, Taken(s, i, k))
  {
    OpenedKept(c, s, Taken(s, i, k));
  }

  lemma TakenLifetimes(s: State, i: nat, k: nat)
    requires Lifetimes(s) && i < |s.lanes| && k < |s.ready| && Available(s, s.ready[k])
    ensures Lifetimes(Taken(s, i, k))
  {
    LifetimesKept(s, Taken(s, i, k));
  }

  lemma TakenWork(s: State, i: nat, k: nat)
    requires Standing(s) && NoLostWork(s)
    requires i < |s.lanes| && (s.lanes[i] == Checking || s.lanes[i] == WokenWork) && k < |s.ready| && Available(s, s.ready[k])
    ensures NoLostWork(Taken(s, i, k))
  {
    var t := s.ready[k];
    var s' := Taken(s, i, k);
    Removed(s.ready, k);
    assert t in Availables(s);
    SubsetSize(Availables(s'), Availables(s) - {t});
    SubsetSize(Woken(s) - {i}, Woken(s'));
  }

  lemma TakenCap(c: Config, s: State, i: nat, k: nat)
    requires NoLostCap(c, s) && StopHeard(s)
    requires i < |s.lanes| && (s.lanes[i] == Checking || s.lanes[i] == WokenWork) && k < |s.ready| && Available(s, s.ready[k])
    ensures var s' := Taken(s, i, k); NoLostCap(c, s') && StopHeard(s')
  {
    CapKept(c, s, Taken(s, i, k));
  }

  lemma SleepKeeps(c: Config, s: State, i: nat)
    requires c.Valid() && Inv(c, s) && Enabled(s, Takes(i)) && NextReady(s, s.ready) == |s.ready|
    ensures Inv(c, Take(s, i))
  {
    var s' := Take(s, i);
    LanesOnly(c, s, s', i);
    forall k | 0 <= k < |s.ready| ensures !Available(s, s.ready[k]) {
      NextReadySkips(s, s.ready, k);
    }
    assert Availables(s') == {};
    CapKept(c, s, s');
  }

  lemma TakeKeeps(c: Config, s: State, i: nat)
    requires c.Valid() && Inv(c, s) && Enabled(s, Takes(i))
    ensures Inv(c, Take(s, i))
  {
    var k := NextReady(s, s.ready);
    if k < |s.ready| {
      TakenLists(c, s, i, k);
      TakenOwned(s, i, k);
      TakenLanesOk(s, i, k);
      TakenCounted(c, s, i, k);
      TakenLifetimes(s, i, k);
      TakenWork(s, i, k);
      TakenCap(c, s, i, k);
    } else {
      SleepKeeps(c, s, i);
    }
  }

  // ----- a lane that holds a tenant -----

  lemma StartLists(c: Config, s: State, i: nat, t: Tenant, e: ExecutorId)
    requires Standing(s) && Served(s) && InOrder(s) && i < |s.lanes| && t in s.tenants && !s.tenants[t].isReady && s.tenants[t].busy
    ensures var s' := Start(c, s, i, t, e); Standing(s') && Served(s') && InOrder(s')
  {
    var s' := Start(c, s, i, t, e);
    assert StandOk(s, t);
    StandingStep(s, s', {t});
    var taken, queue := MessagesOf(s.taken, t), QueueOf(s, t);
    assert taken + queue == MessagesOf(s.accepted, t);
    var n := if |queue| < c.batchMax then |queue| else c.batchMax;
    assert (taken + queue[..n]) + queue[n..] == taken + queue;
    InOrderStep(s, s', t);
  }

  lemma StartOwned(c: Config, s: State, i: nat, t: Tenant, e: ExecutorId)
    requires Owned(s) && LanesOk(s) && i < |s.lanes| && s.lanes[i] == Reserving(t) && t in s.tenants && e !in s.closes
    ensures var s' := Start(c, s, i, t, e); Owned(s') && LanesOk(s')
  {
    var s' := Start(c, s, i, t, e);
    assert t in Held(s.lanes[i]);
    assert LaneOk(s, s.lanes[i]);
    assert OwnerOk(s', i, t) && TenantOk(s', t);
    OwnedStep(s, s', i, {t});
    LanesOkStep(s, s', i, {t});
  }

  lemma StartWakes(c: Config, s: State, i: nat, t: Tenant, e: ExecutorId)
    requires NoLostWork(s) && NoLostCap(c, s) && StopHeard(s)
    requires i < |s.lanes| && s.lanes[i] == Reserving(t) && t in s.tenants && s.tenants[t].busy
    ensures var s' := Start(c, s, i, t, e); NoLostWork(s') && NoLostCap(c, s') && StopHeard(s')
  {
    var s' := Start(c, s, i, t, e);
    WorkKept(s, s');
    CapKept(c, s, s');
  }

  lemma StartExecutors(c: Config, s: State, i: nat, t: Tenant)
    requires Counted(c, s) && Lifetimes(s) && i < |s.lanes| && t in s.tenants && s.tenants[t].executor.None? && s.open < c.maxOpen
    ensures var s' := StartNew(c, s, i, t); Counted(c, s') && Lifetimes(s')
  {
    assert Opened(StartNew(c, s, i, t)) == Opened(s) + {t};
    StartLifetimes(c, s, i, t);
  }

  lemma StartLifetimes(c: Config, s: State, i: nat, t: Tenant)
    requires Lifetimes(s) && i < |s.lanes| && t in s.tenants && s.tenants[t].executor.None?
    ensures Lifetimes(StartNew(c, s, i, t))
  {
    var s' := StartNew(c, s, i, t);
    forall e | 0 <= e < s'.created && e !in s'.closes ensures exists u :: u in s'.tenants && s'.tenants[u].executor == Some(e) {
      if e == s.created {
        assert s'.tenants[t].executor == Some(e);
      } else {
        var u :| u in s.tenants && s.tenants[u].executor == Some(e);
        assert s'.tenants[u].executor == Some(e);
      }
    }
  }

  lemma StartOldKeeps(c: Config, s: State, i: nat, t: Tenant)
    requires c.Valid() && Inv(c, s) && i < |s.lanes| && s.lanes[i] == Reserving(t) && t in s.tenants && s.tenants[t].executor.Some?
    ensures Inv(c, Start(c, s, i, t, s.tenants[t].executor.value))
  {
    var e := s.tenants[t].executor.value;
    HoldsBusy(s, i, t);
    StartLists(c, s, i, t, e);
    StartOwned(c, s, i, t, e);
    OpenedKept(c, s, Start(c, s, i, t, e));
    LifetimesKept(s, Start(c, s, i, t, e));
    StartWakes(c, s, i, t, e);
  }

  lemma HoldsBusy(s: State, i: nat, t: Tenant)
    requires Owned(s) && LanesOk(s) && i < |s.lanes| && s.lanes[i] == Reserving(t)
    ensures t in s.tenants && s.tenants[t].busy && !s.tenants[t].isReady && Fit(s, s.tenants[t]) && t in s.owners && s.owners[t] == ByLane(i)
  {
    assert t in Held(s.lanes[i]);
    assert LaneOk(s, s.lanes[i]);
  }

  function StartNew(c: Config, s: State, i: nat, t: Tenant): State
    requires i < |s.lanes| && t in s.tenants
  {
    Start(c, s, i, t, s.created).(open := s.open + 1, created := s.created + 1)
  }

  lemma StartNewLists(c: Config, s: State, i: nat, t: Tenant)
    requires Standing(s) && Served(s) && InOrder(s) && Owned(s) && LanesOk(s) && Lifetimes(s)
    requires i < |s.lanes| && s.lanes[i] == Reserving(t) && t in s.tenants
    ensures var s' := StartNew(c, s, i, t); Standing(s') && Served(s') && InOrder(s') && Owned(s') && LanesOk(s')
  {
    HoldsBusy(s, i, t);
    StartLists(c, s, i, t, s.created);
    StartOwned(c, s, i, t, s.created);
    SameButCounts(c, Start(c, s, i, t, s.created), StartNew(c, s, i, t));
  }

  lemma StartNewKeeps(c: Config, s: State, i: nat, t: Tenant)
    requires c.Valid() && Inv(c, s) && i < |s.lanes| && s.lanes[i] == Reserving(t) && t in s.tenants && s.tenants[t].executor.None? && s.open < c.maxOpen
    ensures Inv(c, StartNew(c, s, i, t))
  {
    HoldsBusy(s, i, t);
    StartNewLists(c, s, i, t);
    StartExecutors(c, s, i, t);
    StartNewWakes(c, s, i, t);
  }

  lemma StartNewWakes(c: Config, s: State, i: nat, t: Tenant)
    requires NoLostWork(s) && NoLostCap(c, s) && StopHeard(s)
    requires i < |s.lanes| && s.lanes[i] == Reserving(t) && t in s.tenants && s.tenants[t].busy
    ensures var s' := StartNew(c, s, i, t); NoLostWork(s') && NoLostCap(c, s') && StopHeard(s')
  {
    WorkKept(s, StartNew(c, s, i, t));
    CapKept(c, s, StartNew(c, s, i, t));
  }

  /** open and created do not matter to the rest. */
  lemma SameButCounts(c: Config, s: State, s': State)
    requires s' == s.(open := s'.open, created := s'.created)
    requires Standing(s) && Served(s) && InOrder(s) && Owned(s) && LanesOk(s)
    ensures Standing(s') && Served(s') && InOrder(s') && Owned(s') && LanesOk(s')
  {
    SameButCountsLists(s, s');
    SameButCountsOwned(s, s');
  }

  lemma SameButCountsLists(s: State, s': State)
    requires s' == s.(open := s'.open, created := s'.created) && Standing(s) && Served(s) && InOrder(s)
    ensures Standing(s') && Served(s') && InOrder(s')
  {
    assert forall t :: QueueOf(s', t) == QueueOf(s, t);
  }

  lemma SameButCountsOwned(s: State, s': State)
    requires s' == s.(open := s'.open, created := s'.created) && Owned(s) && LanesOk(s)
    ensures Owned(s') && LanesOk(s')
  {
    assert forall l :: LaneOk(s, l) ==> LaneOk(s', l);
    assert forall t :: Ending(s, t) ==> Ending(s', t);
    assert forall q :: Fit(s, q) ==> Fit(s', q);
  }

  /** The dispatcher stops: the lane lets go of its tenant and ends. */
  function LetGo(s: State, i: nat, t: Tenant): State
    requires i < |s.lanes| && t in s.tenants
  {
    s.(tenants := s.tenants[t := s.tenants[t].(busy := false)], lanes := s.lanes[i := Done], owners := s.owners - {t})
  }

  lemma LetGoOwned(s: State, i: nat, t: Tenant)
    requires Owned(s) && LanesOk(s) && i < |s.lanes| && s.lanes[i] == Reserving(t) && t in s.tenants
    ensures Owned(LetGo(s, i, t)) && LanesOk(LetGo(s, i, t))
  {
    var s' := LetGo(s, i, t);
    HoldsBusy(s, i, t);
    assert OwnerOk(s', i, t) && TenantOk(s', t);
    OwnedStep(s, s', i, {t});
    LanesOkStep(s, s', i, {t});
  }

  lemma LetGoLists(s: State, i: nat, t: Tenant)
    requires Standing(s) && InOrder(s) && i < |s.lanes| && t in s.tenants && s.ended
    ensures var s' := LetGo(s, i, t); Standing(s') && Served(s') && InOrder(s')
  {
    var s' := LetGo(s, i, t);
    assert StandOk(s, t);
    StandingStep(s, s', {t});
    assert MessagesOf(s.taken, t) + QueueOf(s, t) == MessagesOf(s.accepted, t);
    InOrderStep(s, s', t);
  }

  lemma LetGoExecutors(c: Config, s: State, i: nat, t: Tenant)
    requires Counted(c, s) && Lifetimes(s) && i < |s.lanes| && t in s.tenants
    ensures var s' := LetGo(s, i, t); Counted(c, s') && Lifetimes(s')
  {
    OpenedKept(c, s, LetGo(s, i, t));
    LifetimesKept(s, LetGo(s, i, t));
  }

  lemma LetGoWakes(c: Config, s: State, i: nat, t: Tenant)
    requires Standing(s) && Owned(s) && LanesOk(s) && NoLostWork(s) && NoLostCap(c, s) && StopHeard(s)
    requires i < |s.lanes| && s.lanes[i] == Reserving(t) && t in s.tenants && s.tenants[t].executor.None? && s.ended
    ensures var s' := LetGo(s, i, t); NoLostWork(s') && NoLostCap(c, s') && StopHeard(s')
  {
    HoldsBusy(s, i, t);
    assert StandOk(s, t);
    WorkKept(s, LetGo(s, i, t));
    CapKept(c, s, LetGo(s, i, t));
  }

  lemma LetGoKeeps(c: Config, s: State, i: nat, t: Tenant)
    requires Inv(c, s) && i < |s.lanes| && s.lanes[i] == Reserving(t) && t in s.tenants && s.tenants[t].executor.None? && s.ended
    ensures Inv(c, LetGo(s, i, t))
  {
    LetGoOwned(s, i, t);
    LetGoLists(s, i, t);
    LetGoExecutors(c, s, i, t);
    LetGoWakes(c, s, i, t);
  }

  lemma SleepAtCapKeeps(c: Config, s: State, i: nat, t: Tenant)
    requires c.Valid() && Inv(c, s) && i < |s.lanes| && s.lanes[i] == Reserving(t) && t in s.tenants && s.tenants[t].executor.None?
    requires s.open >= c.maxOpen && !s.Closed() && MayClose(s, None)
    ensures Inv(c, s.(lanes := s.lanes[i := AsleepCap(t)]))
  {
    var s' := s.(lanes := s.lanes[i := AsleepCap(t)]);
    HoldsBusy(s, i, t);
    assert LaneOk(s, s.lanes[i]);
    LanesOnly(c, s, s', i);
    SleepAtCapWakes(c, s, i, t);
  }

  lemma SleepAtCapWakes(c: Config, s: State, i: nat, t: Tenant)
    requires NoLostWork(s) && StopHeard(s) && i < |s.lanes| && s.lanes[i] == Reserving(t)
    requires s.open >= c.maxOpen && !s.Closed() && MayClose(s, None)
    ensures var s' := s.(lanes := s.lanes[i := AsleepCap(t)]); NoLostWork(s') && NoLostCap(c, s') && StopHeard(s')
  {
    var s' := s.(lanes := s.lanes[i := AsleepCap(t)]);
    WorkKept(s, s');
    assert forall u :: Idle(s', u) ==> Idle(s, u);
  }

  // ----- executors start to close -----

  function VictimChosen(s: State, i: nat, t: Tenant, v: Tenant): State
    requires i < |s.lanes| && v in s.tenants && s.tenants[v].executor.Some?
  {
    Closing(s, v).(lanes := s.lanes[i := ClosingVictim(t, v)], owners := s.owners[v := ByLane(i)])
  }

  /** Idle executors are not closed yet, and no two tenants share one. */
  lemma VictimClosesWithin(s: State, i: nat, t: Tenant, v: Tenant)
    requires Lifetimes(s) && LanesOk(s) && i < |s.lanes| && Idle(s, v)
    ensures var s' := VictimChosen(s, i, t, v); ClosesWithin(s, s', {v}) && Lifetimes(s')
  {
    var s' := VictimChosen(s, i, t, v);
    var e := s.tenants[v].executor.value;
    assert Fit(s, s.tenants[v]);
    assert SameExecutors(s, s');
    forall f | 0 <= f < s'.created && f !in s'.closes ensures exists u :: u in s'.tenants && s'.tenants[u].executor == Some(f) {
      var u :| u in s.tenants && s.tenants[u].executor == Some(f);
      assert u in s'.tenants;
    }
  }

  lemma VictimOwned(s: State, i: nat, t: Tenant, v: Tenant)
    requires Owned(s) && i < |s.lanes| && s.lanes[i] == Reserving(t) && Idle(s, v)
    ensures Owned(VictimChosen(s, i, t, v))
  {
    var s' := VictimChosen(s, i, t, v);
    assert v !in s.owners;
    assert OwnerOk(s', i, v);
    OwnedStep(s, s', i, {v});
  }

  lemma VictimLanesOk(s: State, i: nat, t: Tenant, v: Tenant)
    requires Lifetimes(s) && Owned(s) && LanesOk(s) && i < |s.lanes| && s.lanes[i] == Reserving(t) && t in s.tenants && s.tenants[t].executor.None? && Idle(s, v)
    ensures LanesOk(VictimChosen(s, i, t, v))
  {
    var s' := VictimChosen(s, i, t, v);
    assert LaneOk(s, s.lanes[i]);
    VictimClosesWithin(s, i, t, v);
    assert v !in s.owners;
    assert s.tenants[v].executor.value in s'.closes;
    assert TenantOk(s', v);
    LanesOkStep(s, s', i, {v});
  }

  lemma VictimRest(c: Config, s: State, i: nat, t: Tenant, v: Tenant)
    requires Standing(s) && Served(s) && InOrder(s) && Counted(c, s) && i < |s.lanes| && Idle(s, v)
    ensures var s' := VictimChosen(s, i, t, v); Standing(s') && Served(s') && InOrder(s') && Counted(c, s')
  {
    var s' := VictimChosen(s, i, t, v);
    assert StandOk(s, v);
    StandingStep(s, s', {v});
    assert MessagesOf(s.taken, v) + QueueOf(s, v) == MessagesOf(s.accepted, v);
    InOrderStep(s, s', v);
    OpenedKept(c, s, s');
  }

  lemma VictimChosenWakes(c: Config, s: State, i: nat, t: Tenant, v: Tenant)
    requires NoLostWork(s) && NoLostCap(c, s) && StopHeard(s) && i < |s.lanes| && s.lanes[i] == Reserving(t) && Idle(s, v)
    ensures var s' := VictimChosen(s, i, t, v); NoLostWork(s') && NoLostCap(c, s') && StopHeard(s')
  {
    WorkKept(s, VictimChosen(s, i, t, v));
    CapKept(c, s, VictimChosen(s, i, t, v));
  }

  lemma ReserveKeeps(c: Config, s: State, i: nat, v: Option<Tenant>)
    requires c.Valid() && Inv(c, s) && Enabled(s, Reserves(i, v))
    ensures Inv(c, Reserve(c, s, i, v))
  {
    var t := s.lanes[i].tenant;
    HoldsBusy(s, i, t);
    if s.tenants[t].executor.Some? {
      StartOldKeeps(c, s, i, t);
    } else if s.open < c.maxOpen {
      StartNewKeeps(c, s, i, t);
    } else if s.Closed() || s.ended {
      LetGoKeeps(c, s, i, t);
    } else if v.None? {
      SleepAtCapKeeps(c, s, i, t);
    } else {
      VictimOwned(s, i, t, v.value);
      VictimLanesOk(s, i, t, v.value);
      VictimClosesWithin(s, i, t, v.value);
      VictimRest(c, s, i, t, v.value);
      VictimChosenWakes(c, s, i, t, v.value);
    }
  }

  lemma CloseIdleOwned(s: State, ts: set<Tenant>, ids: seq<ExecutorId>)
    requires Owned(s) && s.lanes != [] && forall t :: t in ts ==> Idle(s, t)
    ensures Owned(CloseIdle(s, ts, ids))
  {
    var s' := CloseIdle(s, ts, ids);
    forall t | t in ts ensures OwnerOk(s', 0, t) && t !in s.owners {
      assert Idle(s, t);
    }
    OwnedStep(s, s', 0, ts);
  }

  lemma IdsNotClosed(s: State, ts: set<Tenant>, ids: seq<ExecutorId>)
    requires LanesOk(s) && Lists(s, ts, ids) && forall t :: t in ts && t in s.tenants ==> !s.tenants[t].busy
    ensures forall e :: e in ids ==> e !in s.closes
  {
    forall e | e in ids ensures e !in s.closes {
      var t :| t in ts && t in s.tenants && s.tenants[t].executor == Some(e);
      assert Fit(s, s.tenants[t]);
    }
  }

  lemma IdsAppended(s: State, ts: set<Tenant>, ids: seq<ExecutorId>)
    requires Lifetimes(s) && Lists(s, ts, ids) && forall e :: e in ids ==> e !in s.closes
    ensures NoDup(s.closes + ids) && forall e :: e in s.closes + ids ==> e < s.created
  {
    forall e | e in ids ensures e < s.created {
      var t :| t in ts && t in s.tenants && s.tenants[t].executor == Some(e);
    }
    var n := |s.closes|;
    forall i, j | 0 <= i < j < |s.closes + ids| ensures (s.closes + ids)[i] != (s.closes + ids)[j] {
      assert n <= j ==> ids[j - n] in ids;
      assert i < n ==> s.closes[i] in s.closes;
    }
  }

  lemma CloseIdleLifetimes(s: State, ts: set<Tenant>, ids: seq<ExecutorId>)
    requires Lifetimes(s) && Lists(s, ts, ids) && forall e :: e in ids ==> e !in s.closes
    ensures Lifetimes(CloseIdle(s, ts, ids))
  {
    var s' := CloseIdle(s, ts, ids);
    IdsAppended(s, ts, ids);
    assert SameExecutors(s, s');
    forall e | 0 <= e < s'.created && e !in s'.closes ensures exists u :: u in s'.tenants && s'.tenants[u].executor == Some(e) {
      var u :| u in s.tenants && s.tenants[u].executor == Some(e);
      assert u in s'.tenants;
    }
  }

  lemma CloseIdleWithin(s: State, ts: set<Tenant>, ids: seq<ExecutorId>)
    requires Lifetimes(s) && Lists(s, ts, ids)
    ensures ClosesWithin(s, CloseIdle(s, ts, ids), ts)
  {
    forall t | t !in ts && t in s.tenants && s.tenants[t].executor.Some? ensures s.tenants[t].executor.value !in ids {
    }
  }

  lemma CloseIdleEnding(s: State, ts: set<Tenant>, ids: seq<ExecutorId>, t: Tenant)
    requires Owned(s) && Lists(s, ts, ids) && t in ts && Idle(s, t)
    ensures TenantOk(CloseIdle(s, ts, ids), t) && t !in s.owners
  {
    assert s.tenants[t].executor.value in ids;
  }

  lemma HeldOwned(s: State, i: nat, ts: set<Tenant>)
    requires Owned(s) && i < |s.lanes| && forall t :: t in ts ==> t !in s.owners
    ensures Held(s.lanes[i]) !! ts
  {
    assert forall t :: t in Held(s.lanes[i]) ==> t in s.owners;
  }

  lemma CloseIdleLanesOk(s: State, ts: set<Tenant>, ids: seq<ExecutorId>)
    requires Owned(s) && LanesOk(s) && Lifetimes(s) && s.lanes != [] && Lists(s, ts, ids) && forall t :: t in ts ==> Idle(s, t)
    ensures LanesOk(CloseIdle(s, ts, ids))
  {
    var s' := CloseIdle(s, ts, ids);
    CloseIdleWithin(s, ts, ids);
    forall t | t in ts ensures TenantOk(s', t) && t !in s.owners {
      CloseIdleEnding(s, ts, ids, t);
    }
    HeldOwned(s, 0, ts);
    LaneOkKept(s, s', ts, s.lanes[0], s'.lanes[0]);
    LanesOkStep(s, s', 0, ts);
  }

  lemma CloseIdleRest(c: Config, s: State, ts: set<Tenant>, ids: seq<ExecutorId>)
    requires Standing(s) && Served(s) && InOrder(s) && Counted(c, s)
    ensures var s' := CloseIdle(s, ts, ids); Standing(s') && Served(s') && InOrder(s') && Counted(c, s')
  {
    var s' := CloseIdle(s, ts, ids);
    OpenedKept(c, s, s');
    assert forall t :: QueueOf(s', t) == QueueOf(s, t);
  }

  lemma CloseIdleWakes(c: Config, s: State, ts: set<Tenant>, ids: seq<ExecutorId>)
    requires NoLostWork(s) && NoLostCap(c, s) && StopHeard(s)
    ensures var s' := CloseIdle(s, ts, ids); NoLostWork(s') && NoLostCap(c, s') && StopHeard(s')
  {
    WorkKept(s, CloseIdle(s, ts, ids));
    CapKept(c, s, CloseIdle(s, ts, ids));
  }

  lemma CloseIdleKeeps(c: Config, s: State, ts: set<Tenant>, ids: seq<ExecutorId>)
    requires c.Valid() && Inv(c, s) && Enabled(s, ClosesIdle(ts, ids))
    ensures Inv(c, CloseIdle(s, ts, ids))
  {
    IdsNotClosed(s, ts, ids);
    CloseIdleOwned(s, ts, ids);
    CloseIdleLifetimes(s, ts, ids);
    CloseIdleLanesOk(s, ts, ids);
    CloseIdleRest(c, s, ts, ids);
    CloseIdleWakes(c, s, ts, ids);
  }

  // ----- the end of Close -----

  lemma AloneIdle(s: State)
    requires Owned(s) && Alone(s)
    ensures s.owners == map[] && forall t :: t in s.tenants ==> !s.tenants[t].busy
  {
    forall t ensures t !in s.owners {
      assert t in s.closers <==> t in s.owners && s.owners[t] == ByJanitor;
    }
    assert s.owners.Keys == {};
  }

  lemma CloseAllLifetimes(c: Config, s: State, ids: seq<ExecutorId>)
    requires Lifetimes(s) && Lists(s, s.tenants.Keys, ids) && forall e :: e in ids ==> e !in s.closes
    ensures var s' := CloseAll(s, ids); Lifetimes(s') && Counted(c, s') && forall e :: 0 <= e < s'.created ==> e in s'.closes
  {
    var s' := CloseAll(s, ids);
    IdsAppended(s, s.tenants.Keys, ids);
    assert Opened(s') == {};
    forall e | 0 <= e < s'.created ensures e in s'.closes {
      if e !in s.closes {
        var t :| t in s.tenants && s.tenants[t].executor == Some(e);
        assert t in s.tenants.Keys;
      }
    }
  }

  lemma CloseAllKeeps(c: Config, s: State, ids: seq<ExecutorId>)
    requires c.Valid() && Inv(c, s) && Enabled(s, ClosesAll(ids))
    ensures Inv(c, CloseAll(s, ids))
  {
    var s' := CloseAll(s, ids);
    AloneIdle(s);
    IdsNotClosed(s, s.tenants.Keys, ids);
    CloseAllLifetimes(c, s, ids);
    CloseAllOwned(s, ids);
    assert forall t :: QueueOf(s', t) == QueueOf(s, t);
    assert Standing(s') && Served(s') && InOrder(s');
  }

  lemma CloseAllOwned(s: State, ids: seq<ExecutorId>)
    requires Owned(s) && Alone(s)
    ensures var s' := CloseAll(s, ids); Owned(s') && LanesOk(s')
  {
    AloneIdle(s);
  }

  // ----- steps that only wake -----

  lemma RouseKeeps(c: Config, s: State, s': State, i: nat)
    requires c.Valid() && Inv(c, s) && s' == s.(lanes := s'.lanes) && i < |s.lanes|
    requires LanesKept(s, s', i) && StillWoken(s, s') && NoNewSleeper(s, s') && Held(s'.lanes[i]) == Held(s.lanes[i]) && LaneOk(s', s'.lanes[i])
    requires forall j :: 0 <= j < |s.lanes| ==> !s'.lanes[j].AsleepCap?
    requires s'.lanes[i] == Done ==> s.lanes[i] == Done
    ensures Inv(c, s')
  {
    LanesOnly(c, s, s', i);
    RouseWakes(c, s, s', i);
  }

  lemma RouseWakes(c: Config, s: State, s': State, i: nat)
    requires NoLostWork(s) && StopHeard(s) && s' == s.(lanes := s'.lanes) && i < |s.lanes|
    requires LanesKept(s, s', i) && StillWoken(s, s') && NoNewSleeper(s, s') && (s'.lanes[i] == Done ==> s.lanes[i] == Done)
    requires forall j :: 0 <= j < |s.lanes| ==> !s'.lanes[j].AsleepCap?
    ensures NoLostWork(s') && NoLostCap(c, s') && StopHeard(s')
  {
    WorkKept(s, s');
    assert !SleepsAtCap(s');
  }

  lemma AnnounceKeeps(c: Config, s: State, i: nat)
    requires c.Valid() && Inv(c, s) && Enabled(s, Announces(i))
    ensures Inv(c, s.(lanes := RouseCap(s.lanes[i := Checking])))
  {
    RouseKeeps(c, s, s.(lanes := RouseCap(s.lanes[i := Checking])), i);
  }

  lemma SendCapKeeps(c: Config, s: State)
    requires c.Valid() && Inv(c, s) && Enabled(s, SendsCap)
    ensures Inv(c, s.(stopper := AllSent, lanes := RouseCap(s.lanes)))
  {
    var s1 := s.(lanes := RouseCap(s.lanes));
    var s' := s1.(stopper := AllSent);
    LaneOkKept(s, s1, {}, s.lanes[0], s1.lanes[0]);
    RouseKeeps(c, s, s1, 0);
    SameButStop(c, s1, s');
  }

  lemma SendWorkKeeps(c: Config, s: State)
    requires c.Valid() && Inv(c, s) && Enabled(s, SendsWork)
    ensures Inv(c, s.(stopper := WorkSent, lanes := RouseWork(s.lanes)))
  {
    var s1 := s.(lanes := RouseWork(s.lanes));
    var s' := s1.(stopper := WorkSent);
    LaneOkKept(s, s1, {}, s.lanes[0], s1.lanes[0]);
    LanesOnly(c, s, s1, 0);
    WorkKept(s, s1);
    CapKept(c, s, s1);
    SameButStop(c, s1, s');
  }

  /** The context, the stopper and the janitor's end do not matter to the rest. */
  lemma SameButStop(c: Config, s: State, s': State)
    requires Inv(c, s) && s' == s.(ended := s'.ended, stopper := s'.stopper, janitorDone := s'.janitorDone)
    requires (s.ended ==> s'.ended) && (s.Closed() ==> s'.Closed()) && StopHeard(s')
    ensures Inv(c, s')
  {
    SameButStopOwned(s, s');
    OpenedKept(c, s, s');
    LifetimesKept(s, s');
    WorkKept(s, s');
    CapKept(c, s, s');
    assert forall t :: QueueOf(s', t) == QueueOf(s, t);
  }

  lemma SameButStopOwned(s: State, s': State)
    requires Owned(s) && LanesOk(s) && s' == s.(ended := s'.ended, stopper := s'.stopper, janitorDone := s'.janitorDone)
    ensures Owned(s') && LanesOk(s')
  {
    assert forall l :: LaneOk(s, l) ==> LaneOk(s', l);
    assert forall t :: Ending(s, t) ==> Ending(s', t);
    assert forall q :: Fit(s, q) ==> Fit(s', q);
  }

  lemma LaneStepKeeps(c: Config, s: State, e: Event)
    requires c.Valid() && Inv(c, s) && Enabled(s, e) && (e.Takes? || e.Reserves? || e.VictimCloses? || e.Finishes? || e.Announces?)
    ensures Inv(c, Apply(c, s, e))
  {
    match e
    case Takes(i) => TakeKeeps(c, s, i);
    case Reserves(i, v) => ReserveKeeps(c, s, i, v);
    case VictimCloses(i, w) => VictimCloseKeeps(c, s, i, w);
    case Finishes(i, now, w) => FinishKeeps(c, s, i, now, w);
    case Announces(i) => AnnounceKeeps(c, s, i);
  }

  lemma StopStepKeeps(c: Config, s: State, e: Event)
    requires c.Valid() && Inv(c, s) && Enabled(s, e) && (e.ContextEnds? || e.Shuts? || e.SendsWork? || e.SendsCap? || e.JanitorEnds?)
    ensures Inv(c, Apply(c, s, e))
  {
    match e
    case ContextEnds => SameButStop(c, s, s.(ended := true));
    case Shuts => SameButStop(c, s, s.(stopper := Shut));
    case SendsWork => SendWorkKeeps(c, s);
    case SendsCap => SendCapKeeps(c, s);
    case JanitorEnds => SameButStop(c, s, s.(janitorDone := true));
  }

  /** Every step keeps the invariant. */
  lemma StepKeeps(c: Config, s: State, e: Event)
    requires c.Valid() && Inv(c, s) && Enabled(s, e)
    ensures Inv(c, Apply(c, s, e))
  {
    match e
    case Submits(t, m, w) => SubmitKeeps(c, s, t, m, w);
    case ClosesIdle(ts, ids) => CloseIdleKeeps(c, s, ts, ids);
    case IdleCloses(t, w) => IdleCloseKeeps(c, s, t, w);
    case ClosesAll(ids) => CloseAllKeeps(c, s, ids);
    case Takes(_) => LaneStepKeeps(c, s, e);
    case Reserves(_, _) => LaneStepKeeps(c, s, e);
    case VictimCloses(_, _) => LaneStepKeeps(c, s, e);
    case Finishes(_, _, _) => LaneStepKeeps(c, s, e);
    case Announces(_) => LaneStepKeeps(c, s, e);
    case _ => StopStepKeeps(c, s, e);
  }

  /** Every state of every run keeps the invariant. */
  lemma {:induction false} RunKeeps(c: Config, states: seq<State>, events: seq<Event>, n: nat)
    requires c.Valid() && Run(c, states, events) && n < |states|
    ensures Inv(c, states[n])
  {
    if n == 0 {
      InitialInv(c);
    } else {
      RunKeeps(c, states, events, n - 1);
      StepKeeps(c, states[n - 1], events[n - 1]);
    }
  }
}
