/** The TopicDispatcher as a state machine (mqttclient/dispatcher.go, mqttclient/executors.go). A step
    is what one goroutine does while it holds the mutex, or a part of that: a lane that takes a tenant
    and reserves its executor in one go makes two steps here, so every interleaving of the program is
    one of the machine. */
module Dispatch {
  import opened Calendar

  type Tenant = string
  type Msg = nat
  type ExecutorId = nat

  datatype Config = Config(parallel: nat, batchMax: nat, maxOpen: nat)
  {
    /** readPositiveInt and readMaxOpen. */
    predicate Valid() {
      1 <= batchMax && 1 <= parallel <= maxOpen
    }
  }

  datatype TenantQueue = TenantQueue(queue: seq<Msg>, executor: Option<ExecutorId>, busy: bool, isReady: bool, lastUsed: int)

  datatype Lane =
    | Checking                                      // about to look for a ready tenant
    | AsleepWork                                    // in work.Wait
    | WokenWork                                     // signalled, about to look again
    | Reserving(tenant: Tenant)                     // took the tenant, about to run it or to make room for it
    | AsleepCap(tenant: Tenant)                     // in capFree.Wait
    | ClosingVictim(tenant: Tenant, victim: Tenant) // closes another executor without the mutex
    | Running(tenant: Tenant, executor: ExecutorId, batch: seq<Msg>)
    | Announcing                                    // finished its batch, capFree.Broadcast still to come
    | Done

  datatype Owner = ByLane(lane: nat) | ByJanitor

  /** The goroutine that waits for the end of the context. */
  datatype Stopper = Waiting | Shut | WorkSent | AllSent

  datatype State = State(
    tenants: map<Tenant, TenantQueue>,
    ready: seq<Tenant>,
    open: int,
    ended: bool,             // the context
    stopper: Stopper,        // closed is set once it left Waiting
    janitorDone: bool,
    lanes: seq<Lane>,
    closers: set<Tenant>,    // tenants whose executor a goroutine of the janitor closes
    owners: map<Tenant, Owner>,        // auxiliary: who made the tenant busy
    accepted: map<Tenant, seq<Msg>>,   // messages submitted so far
    taken: map<Tenant, seq<Msg>>,      // messages handed to an executor so far
    created: nat,                      // executors made so far
    closes: seq<ExecutorId>)           // executors whose Close was called, in order
  {
    predicate Closed() {
      stopper != Waiting
    }
  }

  function MessagesOf(m: map<Tenant, seq<Msg>>, t: Tenant): seq<Msg> {
    if t in m then m[t] else []
  }

  function QueueOf(s: State, t: Tenant): seq<Msg> {
    if t in s.tenants then s.tenants[t].queue else []
  }

  /** The tenants the lane works on or closes. */
  function Held(l: Lane): set<Tenant> {
    match l
    case Reserving(t) => {t}
    case AsleepCap(t) => {t}
    case ClosingVictim(t, v) => {t, v}
    case Running(t, _, _) => {t}
    case _ => {}
  }

  // ----- condition variables -----

  /** work.Signal wakes one sleeping lane, if there is one. */
  predicate MayWake(lanes: seq<Lane>, w: Option<nat>) {
    match w
    case Some(i) => i < |lanes| && lanes[i] == AsleepWork
    case None => forall i :: 0 <= i < |lanes| ==> lanes[i] != AsleepWork
  }

  function Wake(lanes: seq<Lane>, w: Option<nat>): (r: seq<Lane>)
    ensures |r| == |lanes|
  {
    match w
    case Some(i) => if i < |lanes| then lanes[i := WokenWork] else lanes
    case None => lanes
  }

  /** A lane after capFree.Broadcast. */
  function RousedCap(l: Lane): Lane {
    if l.AsleepCap? then Reserving(l.tenant) else l
  }

  function RousedWork(l: Lane): Lane {
    if l == AsleepWork then WokenWork else l
  }

  function RouseCap(lanes: seq<Lane>): (r: seq<Lane>)
    ensures |r| == |lanes|
  {
    seq(|lanes|, i requires 0 <= i < |lanes| => RousedCap(lanes[i]))
  }

  function RouseWork(lanes: seq<Lane>): (r: seq<Lane>)
    ensures |r| == |lanes|
  {
    seq(|lanes|, i requires 0 <= i < |lanes| => RousedWork(lanes[i]))
  }

  // ----- sections -----

  /** markReady. */
  predicate WillStand(s: State, t: Tenant)
    requires t in s.tenants
  {
    var q := s.tenants[t];
    !q.busy && !q.isReady && q.queue != [] && !s.Closed()
  }

  function MarkReady(s: State, t: Tenant, w: Option<nat>): State
    requires t in s.tenants
  {
    if WillStand(s, t) then s.(tenants := s.tenants[t := s.tenants[t].(isReady := true)], ready := s.ready + [t], lanes := Wake(s.lanes, w))
    else s
  }

  /** The tenant's queue, or a new empty one. */
  function QueueFor(s: State, t: Tenant): TenantQueue {
    if t in s.tenants then s.tenants[t] else TenantQueue([], None, false, false, 0)
  }

  function Enqueued(s: State, t: Tenant, m: Msg): State {
    var q := QueueFor(s, t);
    s.(tenants := s.tenants[t := q.(queue := q.queue + [m])], accepted := s.accepted[t := MessagesOf(s.accepted, t) + [m]])
  }

  function Submit(s: State, t: Tenant, m: Msg, w: Option<nat>): State {
    if s.Closed() then s else MarkReady(Enqueued(s, t, m), t, w)
  }

  /** A ready tenant that is not being closed. */
  predicate Available(s: State, t: Tenant) {
    t in s.tenants && !s.tenants[t].busy
  }

  /** nextReady: the place of the first available tenant in ready. */
  function NextReady(s: State, ready: seq<Tenant>): (i: nat)
    ensures i <= |ready|
    ensures i < |ready| ==> Available(s, ready[i])
  {
    if ready == [] then 0
    else if Available(s, ready[0]) then 0
    else 1 + NextReady(s, ready[1..])
  }

  function Taken(s: State, i: nat, k: nat): State
    requires i < |s.lanes| && k < |s.ready| && s.ready[k] in s.tenants
  {
    var t := s.ready[k];
    var q := s.tenants[t].(isReady := false);
    var s' := s.(ready := s.ready[..k] + s.ready[k + 1..]);
    if s.Closed() then s'.(tenants := s.tenants[t := q], lanes := s.lanes[i := Done])
    else s'.(tenants := s.tenants[t := q.(busy := true)], lanes := s.lanes[i := Reserving(t)], owners := s.owners[t := ByLane(i)])
  }

  /** A lane looks for a tenant: it takes the first available one, goes to sleep, or ends. */
  function Take(s: State, i: nat): State
    requires i < |s.lanes|
  {
    var k := NextReady(s, s.ready);
    if k < |s.ready| then Taken(s, i, k)
    else s.(lanes := s.lanes[i := if s.Closed() then Done else AsleepWork])
  }

  /** capVictim may choose the tenant: idle and not ready, else the last in ready that is not busy. */
  predicate Idle(s: State, t: Tenant) {
    t in s.tenants && s.tenants[t].executor.Some? && !s.tenants[t].busy
  }

  ghost predicate MayClose(s: State, v: Option<Tenant>) {
    match v
    case Some(t) => Idle(s, t)
    case None => forall t :: !Idle(s, t)
  }

  /** The next batch of the tenant and the executor it runs on. */
  function Start(c: Config, s: State, i: nat, t: Tenant, e: ExecutorId): State
    requires i < |s.lanes| && t in s.tenants
  {
    var q := s.tenants[t];
    var n := if |q.queue| < c.batchMax then |q.queue| else c.batchMax;
    s.(tenants := s.tenants[t := q.(queue := q.queue[n..], executor := Some(e))],
       taken := s.taken[t := MessagesOf(s.taken, t) + q.queue[..n]],
       lanes := s.lanes[i := Running(t, e, q.queue[..n])])
  }

  /** The executor of the tenant starts to close. */
  function Closing(s: State, t: Tenant): State
    requires t in s.tenants && s.tenants[t].executor.Some?
  {
    s.(tenants := s.tenants[t := s.tenants[t].(busy := true)], closes := s.closes + [s.tenants[t].executor.value])
  }

  /** A lane that holds a tenant runs it, or makes room for its executor at the cap. */
  function Reserve(c: Config, s: State, i: nat, v: Option<Tenant>): State
    requires i < |s.lanes| && s.lanes[i].Reserving? && s.lanes[i].tenant in s.tenants
    requires v.Some? ==> v.value in s.tenants && s.tenants[v.value].executor.Some?
  {
    var t := s.lanes[i].tenant;
    if s.tenants[t].executor.Some? then Start(c, s, i, t, s.tenants[t].executor.value)
    else if s.open < c.maxOpen then Start(c, s, i, t, s.created).(open := s.open + 1, created := s.created + 1)
    else if s.Closed() || s.ended then s.(tenants := s.tenants[t := s.tenants[t].(busy := false)], lanes := s.lanes[i := Done], owners := s.owners - {t})
    else if v.None? then s.(lanes := s.lanes[i := AsleepCap(t)])
    else Closing(s, v.value).(lanes := s.lanes[i := ClosingVictim(t, v.value)], owners := s.owners[v.value := ByLane(i)])
  }

  /** The executor of the tenant is gone. */
  function Shed(s: State, t: Tenant): State
    requires t in s.tenants
  {
    s.(tenants := s.tenants[t := s.tenants[t].(executor := None, busy := false)], open := s.open - 1, owners := s.owners - {t})
  }

  /** A tenant without executor keeps its place in ready, or is forgotten, or becomes ready. */
  function Settle(s: State, t: Tenant, w: Option<nat>): State
    requires t in s.tenants
  {
    if s.tenants[t].isReady then s.(lanes := Wake(s.lanes, w))
    else if s.tenants[t].queue == [] then s.(tenants := s.tenants - {t})
    else MarkReady(s, t, w)
  }

  /** markClosed, with its Broadcast. */
  function MarkClosed(s: State, t: Tenant, w: Option<nat>): State
    requires t in s.tenants
  {
    Settle(Shed(s.(lanes := RouseCap(s.lanes)), t), t, w)
  }

  /** The batch of lane i is done. */
  function Finished(s: State, i: nat, now: int): State
    requires i < |s.lanes| && s.lanes[i].Running? && s.lanes[i].tenant in s.tenants
  {
    var t := s.lanes[i].tenant;
    s.(tenants := s.tenants[t := s.tenants[t].(busy := false, lastUsed := now)], lanes := s.lanes[i := Announcing], owners := s.owners - {t})
  }

  /** closeIdle: the tenants of ts start to close. */
  function CloseIdle(s: State, ts: set<Tenant>, ids: seq<ExecutorId>): State {
    s.(tenants := map t | t in s.tenants :: if t in ts then s.tenants[t].(busy := true) else s.tenants[t],
       closers := s.closers + ts, owners := s.owners + (map t | t in ts :: ByJanitor), closes := s.closes + ids)
  }

  /** The end of Close, after every goroutine ended. */
  function CloseAll(s: State, ids: seq<ExecutorId>): State {
    s.(tenants := map t | t in s.tenants :: s.tenants[t].(executor := None), open := 0, closes := s.closes + ids)
  }

  /** ids lists the executors of the tenants, each once. */
  ghost predicate Lists(s: State, ts: set<Tenant>, ids: seq<ExecutorId>) {
    && (forall i, j :: 0 <= i < j < |ids| ==> ids[i] != ids[j])
    && (forall e :: e in ids <==> exists t :: t in ts && t in s.tenants && s.tenants[t].executor == Some(e))
  }

  // ----- steps -----

  datatype Event =
    | Submits(tenant: Tenant, msg: Msg, woken: Option<nat>)
    | Takes(lane: nat)
    | Reserves(lane: nat, victim: Option<Tenant>)
    | VictimCloses(lane: nat, woken: Option<nat>)
    | Finishes(lane: nat, now: int, woken: Option<nat>)
    | Announces(lane: nat)
    | ClosesIdle(tenants: set<Tenant>, ids: seq<ExecutorId>)
    | IdleCloses(tenant: Tenant, woken: Option<nat>)
    | ContextEnds
    | Shuts
    | SendsWork
    | SendsCap
    | JanitorEnds
    | ClosesAll(ids: seq<ExecutorId>)

  predicate Alone(s: State) {
    && s.stopper == AllSent && s.janitorDone && s.closers == {}
    && forall i :: 0 <= i < |s.lanes| ==> s.lanes[i] == Done
  }

  /** The event can happen in the state. */
  ghost predicate Enabled(s: State, e: Event) {
    match e
    case Submits(t, m, w) => MayWake(s.lanes, w)
    case Takes(i) => i < |s.lanes| && (s.lanes[i] == Checking || s.lanes[i] == WokenWork)
    case Reserves(i, v) => i < |s.lanes| && s.lanes[i].Reserving? && s.lanes[i].tenant in s.tenants && MayClose(s, v)
    case VictimCloses(i, w) => i < |s.lanes| && s.lanes[i].ClosingVictim? && s.lanes[i].victim in s.tenants && MayWake(s.lanes, w)
    case Finishes(i, _, w) => i < |s.lanes| && s.lanes[i].Running? && s.lanes[i].tenant in s.tenants && MayWake(s.lanes, w)
    case Announces(i) => i < |s.lanes| && s.lanes[i] == Announcing
    case ClosesIdle(ts, ids) => !s.janitorDone && (forall t :: t in ts ==> Idle(s, t) && !s.tenants[t].isReady) && Lists(s, ts, ids)
    case IdleCloses(t, w) => t in s.closers && t in s.tenants && MayWake(s.lanes, w)
    case ContextEnds => true
    case Shuts => s.ended && s.stopper == Waiting
    case SendsWork => s.stopper == Shut
    case SendsCap => s.stopper == WorkSent
    case JanitorEnds => s.ended
    case ClosesAll(ids) => Alone(s) && Lists(s, s.tenants.Keys, ids)
  }

  ghost function Apply(c: Config, s: State, e: Event): State
    requires Enabled(s, e)
  {
    match e
    case Submits(t, m, w) => Submit(s, t, m, w)
    case Takes(i) => Take(s, i)
    case Reserves(i, v) => Reserve(c, s, i, v)
    case VictimCloses(i, w) =>
      var l := s.lanes[i];
      MarkClosed(s.(lanes := s.lanes[i := Reserving(l.tenant)]), l.victim, w)
    case Finishes(i, now, w) => MarkReady(Finished(s, i, now), s.lanes[i].tenant, w)
    case Announces(i) => s.(lanes := RouseCap(s.lanes[i := Checking]))
    case ClosesIdle(ts, ids) => CloseIdle(s, ts, ids)
    case IdleCloses(t, w) => MarkClosed(s.(closers := s.closers - {t}), t, w)
    case ContextEnds => s.(ended := true)
    case Shuts => s.(stopper := Shut)
    case SendsWork => s.(stopper := WorkSent, lanes := RouseWork(s.lanes))
    case SendsCap => s.(stopper := AllSent, lanes := RouseCap(s.lanes))
    case JanitorEnds => s.(janitorDone := true)
    case ClosesAll(ids) => CloseAll(s, ids)
  }

  function Initial(c: Config): State {
    State(map[], [], 0, false, Waiting, false, seq(c.parallel, _ => Checking), {}, map[], map[], map[], 0, [])
  }

  /** The states from the start of the dispatcher on, and the events between them. */
  ghost predicate Run(c: Config, states: seq<State>, events: seq<Event>) {
    && |states| == |events| + 1
    && states[0] == Initial(c)
    && forall n :: 0 <= n < |events| ==> Enabled(states[n], events[n]) && states[n + 1] == Apply(c, states[n], events[n])
  }
}
