/** Between submissions the dispatcher comes to rest: lanes and closers make a bounded number of steps, and
    when none of them has a step to make, every accepted message was handed to an executor. */
module DispatchProgress {
  import opened Calendar
  import opened Dispatch
  import opened DispatchSafety
  import opened DispatchSteps
  import opened DispatchTheorems
  import opened Seqs

  // ----- the rank of a state -----

  /** The places of the queued messages. */
  ghost function Places(s: State): set<(Tenant, nat)> {
    set t, i: nat | t in s.tenants && i < |s.tenants[t].queue| :: (t, i)
  }

  /** Weights of lanes: a batch runs, a broadcast is to come, steps to make before the lane sleeps. */
  datatype Scale = Batches | Broadcasts | Moves

  function Weight(l: Lane, scale: Scale): nat {
    match scale
    case Batches => if l.Running? then 1 else 0
    case Broadcasts => if l.Announcing? then 1 else 0
    case Moves => match l { case Checking => 3 case WokenWork => 3 case Reserving(_) => 2 case ClosingVictim(_, _) => 1 case _ => 0 }
  }

  function WeightOf(lanes: seq<Lane>, scale: Scale): nat {
    if lanes == [] then 0 else Weight(lanes[0], scale) + WeightOf(lanes[1..], scale)
  }

  /** No lane got heavier. */
  ghost predicate Lighter(a: seq<Lane>, b: seq<Lane>, scale: Scale) {
    |a| == |b| && forall i :: 0 <= i < |a| ==> Weight(b[i], scale) <= Weight(a[i], scale)
  }

  lemma {:induction false} LighterSum(a: seq<Lane>, b: seq<Lane>, scale: Scale)
    requires Lighter(a, b, scale)
    ensures WeightOf(b, scale) <= WeightOf(a, scale)
  {
    if a != [] {
      LighterSum(a[1..], b[1..], scale);
    }
  }

  lemma {:induction false} LessSum(a: seq<Lane>, b: seq<Lane>, scale: Scale, i: nat)
    requires Lighter(a, b, scale) && i < |a| && Weight(b[i], scale) < Weight(a[i], scale)
    ensures WeightOf(b, scale) < WeightOf(a, scale)
  {
    if i == 0 {
      LighterSum(a[1..], b[1..], scale);
    } else {
      LessSum(a[1..], b[1..], scale, i - 1);
    }
  }

  lemma {:induction false} WeightBound(lanes: seq<Lane>)
    ensures WeightOf(lanes, Batches) <= |lanes| && WeightOf(lanes, Broadcasts) <= |lanes| && WeightOf(lanes, Moves) <= 3 * |lanes|
  {
    if lanes != [] {
      WeightBound(lanes[1..]);
    }
  }

  function Digit(high: nat, low: nat, bound: nat): nat {
    high * (bound + 1) + low
  }

  lemma DigitLess(h: nat, l: nat, h': nat, l': nat, bound: nat)
    requires l' <= bound && (h' < h || (h' == h && l' < l))
    ensures Digit(h', l', bound) < Digit(h, l, bound)
  {
    if h' < h {
      assert (h' + 1) * (bound + 1) <= h * (bound + 1);
    }
  }

  /** Queued messages, running batches, broadcasts to come, open executors and moves, most weighty first. */
  ghost function Rank(c: Config, s: State): nat {
    var n := |s.lanes|;
    var open: nat := if s.open < 0 then 0 else s.open;
    Digit(Digit(Digit(Digit(|Places(s)|, WeightOf(s.lanes, Batches), n), WeightOf(s.lanes, Broadcasts), n), open, c.maxOpen), WeightOf(s.lanes, Moves), 3 * n)
  }

  /** The step lowers the rank: some part falls, and no weightier one grows. */
  ghost predicate Falls(s: State, s': State) {
    && |Places(s')| <= |Places(s)|
    && (|Places(s')| < |Places(s)| || (
        && WeightOf(s'.lanes, Batches) <= WeightOf(s.lanes, Batches)
        && (WeightOf(s'.lanes, Batches) < WeightOf(s.lanes, Batches) || (
            && WeightOf(s'.lanes, Broadcasts) <= WeightOf(s.lanes, Broadcasts)
            && (WeightOf(s'.lanes, Broadcasts) < WeightOf(s.lanes, Broadcasts) || (
                && s'.open <= s.open
                && (s'.open < s.open || WeightOf(s'.lanes, Moves) < WeightOf(s.lanes, Moves))))))))
  }

  lemma FallsRank(c: Config, s: State, s': State)
    requires Falls(s, s') && |s'.lanes| == |s.lanes| && 0 <= s.open <= c.maxOpen && 0 <= s'.open <= c.maxOpen
    ensures Rank(c, s') < Rank(c, s)
  {
    var n := |s.lanes|;
    WeightBound(s'.lanes);
    var b, b' := WeightOf(s.lanes, Batches), WeightOf(s'.lanes, Batches);
    var a, a' := WeightOf(s.lanes, Broadcasts), WeightOf(s'.lanes, Broadcasts);
    var m, m' := WeightOf(s.lanes, Moves), WeightOf(s'.lanes, Moves);
    var q, q' := |Places(s)|, |Places(s')|;
    var d1, d1' := Digit(q, b, n), Digit(q', b', n);
    var d2, d2' := Digit(d1, a, n), Digit(d1', a', n);
    var d3, d3' := Digit(d2, s.open, c.maxOpen), Digit(d2', s'.open, c.maxOpen);
    if q' < q || b' < b {
      DigitLess(q, b, q', b', n);
    }
    if d1' < d1 || (d1' == d1 && a' < a) {
      DigitLess(d1, a, d1', a', n);
    }
    if d2' < d2 || (d2' == d2 && s'.open < s.open) {
      DigitLess(d2, s.open, d2', s'.open, c.maxOpen);
    }
    DigitLess(d3, m, d3', m', 3 * n);
  }

  // ----- what a step does to the parts -----

  /** Queues are kept; tenants without messages may be forgotten. */
  ghost predicate QueuesKept(s: State, s': State) {
    forall t :: QueueOf(s', t) == QueueOf(s, t)
  }

  lemma PlacesKept(s: State, s': State)
    requires QueuesKept(s, s')
    ensures Places(s') == Places(s)
  {
    forall t, i: nat ensures (t, i) in Places(s') <==> (t, i) in Places(s) {
      assert QueueOf(s', t) == QueueOf(s, t);
    }
  }

  /** A started batch takes the first place at least. */
  lemma PlacesFewer(s: State, s': State, t: Tenant)
    requires t in s.tenants && s.tenants[t].queue != [] && t in s'.tenants && |s'.tenants[t].queue| < |s.tenants[t].queue|
    requires forall u :: u != t ==> QueueOf(s', u) == QueueOf(s, u)
    ensures |Places(s')| < |Places(s)|
  {
    var x := (t, |s.tenants[t].queue| - 1);
    assert x in Places(s);
    forall u, i: nat | (u, i) in Places(s') ensures (u, i) in Places(s) - {x} {
      assert u != t ==> QueueOf(s', u) == QueueOf(s, u);
    }
    SubsetSize(Places(s'), Places(s) - {x});
  }

  lemma StartFalls(c: Config, s: State, i: nat, t: Tenant, e: ExecutorId)
    requires c.Valid() && i < |s.lanes| && t in s.tenants && s.tenants[t].queue != []
    ensures |Places(Start(c, s, i, t, e))| < |Places(s)|
  {
    PlacesFewer(s, Start(c, s, i, t, e), t);
  }

  /** Only lane i changes its weight. */
  lemma MoveFalls(s: State, s': State, i: nat)
    requires QueuesKept(s, s') && s'.open <= s.open && i < |s.lanes| == |s'.lanes|
    requires s'.lanes == s.lanes[i := s'.lanes[i]] && Weight(s'.lanes[i], Moves) < Weight(s.lanes[i], Moves)
    requires Weight(s'.lanes[i], Batches) <= Weight(s.lanes[i], Batches) && Weight(s'.lanes[i], Broadcasts) <= Weight(s.lanes[i], Broadcasts)
    ensures Falls(s, s')
  {
    PlacesKept(s, s');
    LighterSum(s.lanes, s'.lanes, Batches);
    LighterSum(s.lanes, s'.lanes, Broadcasts);
    LessSum(s.lanes, s'.lanes, Moves, i);
  }

  lemma TakeFalls(s: State, i: nat)
    requires Enabled(s, Takes(i))
    ensures Falls(s, Take(s, i))
  {
    MoveFalls(s, Take(s, i), i);
  }

  lemma ReserveFalls(c: Config, s: State, i: nat, v: Option<Tenant>)
    requires c.Valid() && LanesOk(s) && Enabled(s, Reserves(i, v))
    ensures Falls(s, Reserve(c, s, i, v))
  {
    var t := s.lanes[i].tenant;
    assert LaneOk(s, s.lanes[i]);
    if s.tenants[t].executor.Some? {
      StartFalls(c, s, i, t, s.tenants[t].executor.value);
    } else if s.open < c.maxOpen {
      StartFalls(c, s, i, t, s.created);
      assert Places(Reserve(c, s, i, v)) == Places(Start(c, s, i, t, s.created));
    } else {
      ReserveMoves(c, s, i, v);
    }
  }

  lemma ReserveMoves(c: Config, s: State, i: nat, v: Option<Tenant>)
    requires Enabled(s, Reserves(i, v)) && s.tenants[s.lanes[i].tenant].executor.None? && s.open >= c.maxOpen
    ensures Falls(s, Reserve(c, s, i, v))
  {
    MoveFalls(s, Reserve(c, s, i, v), i);
  }

  /** Roused and woken lanes have no batch and no broadcast. */
  ghost predicate LanesCalm(a: seq<Lane>, b: seq<Lane>) {
    Lighter(a, b, Batches) && Lighter(a, b, Broadcasts)
  }

  lemma CloseFalls(s: State, s': State)
    requires QueuesKept(s, s') && LanesCalm(s.lanes, s'.lanes) && s'.open < s.open
    ensures Falls(s, s')
  {
    PlacesKept(s, s');
    LighterSum(s.lanes, s'.lanes, Batches);
    LighterSum(s.lanes, s'.lanes, Broadcasts);
  }

  lemma ShedQueues(s: State, t: Tenant)
    requires t in s.tenants
    ensures QueuesKept(s, Shed(s, t))
  {
  }

  lemma MarkReadyParts(s: State, t: Tenant, w: Option<nat>)
    requires t in s.tenants
    ensures var s' := MarkReady(s, t, w); QueuesKept(s, s') && s'.open == s.open && (s'.lanes == s.lanes || s'.lanes == Wake(s.lanes, w))
  {
  }

  lemma SettleQueues(s: State, t: Tenant, w: Option<nat>)
    requires t in s.tenants
    ensures QueuesKept(s, Settle(s, t, w))
  {
    MarkReadyParts(s, t, w);
  }

  lemma WakeCalm(lanes: seq<Lane>, w: Option<nat>)
    requires MayWake(lanes, w)
    ensures LanesCalm(lanes, Wake(RouseCap(lanes), w)) && LanesCalm(lanes, RouseCap(lanes))
  {
  }

  lemma SettleLanes(s: State, t: Tenant, w: Option<nat>)
    requires t in s.tenants
    ensures var s' := Settle(s, t, w); s'.open == s.open && (s'.lanes == s.lanes || s'.lanes == Wake(s.lanes, w))
  {
    MarkReadyParts(s, t, w);
  }

  lemma MarkClosedFalls(s: State, base: State, t: Tenant, w: Option<nat>)
    requires t in base.tenants && MayWake(base.lanes, w) && QueuesKept(s, base) && LanesCalm(s.lanes, base.lanes) && base.open == s.open
    ensures Falls(s, MarkClosed(base, t, w))
  {
    var roused := base.(lanes := RouseCap(base.lanes));
    var shed := Shed(roused, t);
    ShedQueues(roused, t);
    SettleQueues(shed, t, w);
    SettleLanes(shed, t, w);
    WakeCalm(base.lanes, w);
    QueuesThrough(s, base, shed, Settle(shed, t, w));
    CloseFalls(s, Settle(shed, t, w));
  }

  lemma QueuesThrough(s: State, base: State, shed: State, s': State)
    requires QueuesKept(s, base) && QueuesKept(base.(lanes := shed.lanes), shed) && QueuesKept(shed, s')
    ensures QueuesKept(s, s')
  {
    forall t ensures QueueOf(s', t) == QueueOf(s, t) {
      assert QueueOf(base, t) == QueueOf(s, t) && QueueOf(base.(lanes := shed.lanes), t) == QueueOf(base, t);
      assert QueueOf(shed, t) == QueueOf(base.(lanes := shed.lanes), t) && QueueOf(s', t) == QueueOf(shed, t);
    }
  }

  lemma FinishFalls(s: State, i: nat, now: int, w: Option<nat>)
    requires Enabled(s, Finishes(i, now, w))
    ensures Falls(s, MarkReady(Finished(s, i, now), s.lanes[i].tenant, w))
  {
    var f := Finished(s, i, now);
    var s' := MarkReady(f, s.lanes[i].tenant, w);
    MarkReadyParts(f, s.lanes[i].tenant, w);
    assert QueuesKept(s, f);
    PlacesKept(s, f);
    PlacesKept(f, s');
    LessSum(s.lanes, s'.lanes, Batches, i);
  }

  lemma AnnounceFalls(s: State, i: nat)
    requires Enabled(s, Announces(i))
    ensures Falls(s, s.(lanes := RouseCap(s.lanes[i := Checking])))
  {
    var s' := s.(lanes := RouseCap(s.lanes[i := Checking]));
    PlacesKept(s, s');
    LighterSum(s.lanes, s'.lanes, Batches);
    LessSum(s.lanes, s'.lanes, Broadcasts, i);
  }

  /** Every step of a lane or a closer lowers the rank. */
  lemma OwnStepFalls(c: Config, s: State, e: Event)
    requires c.Valid() && Inv(c, s) && Enabled(s, e) && OwnStep(e)
    ensures Rank(c, Apply(c, s, e)) < Rank(c, s)
  {
    StepKeeps(c, s, e);
    StepFalls(c, s, e);
    FallsRank(c, s, Apply(c, s, e));
  }

  lemma StepFalls(c: Config, s: State, e: Event)
    requires c.Valid() && Inv(c, s) && Enabled(s, e) && OwnStep(e)
    ensures Falls(s, Apply(c, s, e))
  {
    match e
    case Takes(i) => TakeFalls(s, i);
    case Reserves(i, v) => ReserveFalls(c, s, i, v);
    case VictimCloses(i, w) => VictimFalls(s, i, w);
    case Finishes(i, now, w) => FinishFalls(s, i, now, w);
    case Announces(i) => AnnounceFalls(s, i);
    case IdleCloses(t, w) => MarkClosedFalls(s, s.(closers := s.closers - {t}), t, w);
  }

  lemma VictimFalls(s: State, i: nat, w: Option<nat>)
    requires Enabled(s, VictimCloses(i, w))
    ensures Falls(s, MarkClosed(s.(lanes := s.lanes[i := Reserving(s.lanes[i].tenant)]), s.lanes[i].victim, w))
  {
    MarkClosedFalls(s, s.(lanes := s.lanes[i := Reserving(s.lanes[i].tenant)]), s.lanes[i].victim, w);
  }

  // ----- quiet runs -----

  /** Steps of lanes and closers only, from any state. */
  ghost predicate QuietRun(c: Config, states: seq<State>, events: seq<Event>) {
    && |states| == |events| + 1
    && forall n :: 0 <= n < |events| ==> OwnStep(events[n]) && Enabled(states[n], events[n]) && states[n + 1] == Apply(c, states[n], events[n])
  }

  /** There are at most as many of them as the rank of the first state. */
  lemma {:induction false} QuietRunEnds(c: Config, states: seq<State>, events: seq<Event>, n: nat)
    requires c.Valid() && QuietRun(c, states, events) && Inv(c, states[0]) && n <= |events|
    ensures Inv(c, states[n]) && n + Rank(c, states[n]) <= Rank(c, states[0])
  {
    if n > 0 {
      QuietRunEnds(c, states, events, n - 1);
      StepKeeps(c, states[n - 1], events[n - 1]);
      OwnStepFalls(c, states[n - 1], events[n - 1]);
    }
  }

  /** No lane and no closer has a step to make. */
  ghost predicate AtRest(s: State) {
    forall e :: OwnStep(e) ==> !Enabled(s, e)
  }

  /** Before the context ends, a dispatcher at rest has handed every accepted message to an executor, and no
      tenant is busy. */
  lemma RestIsServed(c: Config, s: State, t: Tenant)
    requires c.Valid() && Inv(c, s) && !s.ended && AtRest(s)
    ensures MessagesOf(s.taken, t) == MessagesOf(s.accepted, t) && QueueOf(s, t) == [] && (t in s.tenants ==> !s.tenants[t].busy)
  {
    if t in s.tenants && (s.tenants[t].queue != [] || s.tenants[t].busy) {
      var e := NoDeadlock(c, s, t);
    }
    assert MessagesOf(s.taken, t) + QueueOf(s, t) == MessagesOf(s.accepted, t);
  }

  /** After both broadcasts of the stop, a dispatcher at rest has ended: Close waits for no one. */
  lemma RestIsOver(c: Config, s: State, i: nat)
    requires Inv(c, s) && s.stopper == AllSent && AtRest(s) && i < |s.lanes|
    ensures s.lanes[i] == Done && s.closers == {}
  {
    if !s.lanes[i].Done? {
      var e := StopWakesAll(c, s, i);
    }
    if s.closers != {} {
      var t :| t in s.closers;
      var e := CloserEnabled(s, t);
    }
  }
}
