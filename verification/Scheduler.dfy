/**
 runScheduler: the delivery goroutines, the one bounded event channel, the packaging goroutine and the
 main loop with its claims and its shutdown, as a machine over the Lifecycle world. Everything that
 the other processes do meanwhile is a step of that machine.
 */
module Scheduler {
  import opened Wrappers
  import opened Clock
  import opened Ordering
  import opened Schema
  import opened Store
  import opened Lifecycle
  import opened LifecycleInvariant

  /** packageDeliveryTask: the claimed row as it was read. */
  datatype Ticket = Ticket(k: DeliveryKey, attempt: nat, plan: Plan)

  datatype Status = Uploading | Finishing(error: Option<string>) | Sent(error: Option<string>)

  /** A delivery goroutine whose `done` the main loop has not processed. */
  datatype Task = Task(ticket: Ticket, status: Status)

  /** packageDeliveryEvent; `id` names the goroutine that sent it. */
  datatype Event =
    | ProgressEvent(id: nat, ticket: Ticket, raw: string)
    | DoneEvent(id: nat, ticket: Ticket, error: Option<string>)

  /** Where the main loop stands. Holding: a row is claimed, its plan not decoded yet. */
  datatype Phase = Head | Draining | Reconciling | Claiming | Holding(ticket: Ticket) | Waiting | Stopping | Stopped

  /** The packaging goroutine and its one-slot channel. */
  datatype Packaging = Running | Ended | Read

  /** `snapshots` bounds what the running uploads will still report; `taken` are the goroutines whose
      `done` was processed. */
  datatype State = State(
    w: World,
    tasks: map<nat, Task>,
    started: nat,
    taken: set<nat>,
    channel: seq<Event>,
    active: int,
    packaging: Packaging,
    cancelled: bool,
    snapshots: nat,
    phase: Phase)

  datatype Move =
    // the rest of the system
    | Other(a: Action)
    | Cancel
    | PackagingEnds
    // delivery goroutines
    | Report(id: nat, raw: string)
    | Ends(id: nat, error: Option<string>)
    | Send(id: nat)
    // main loop
    | CheckContext
    | Take(fault: bool)
    | ReadPackaging
    | NothingToDrain
    | Reconciled(failed: bool)
    | ClaimNext(k: DeliveryKey)
    | ClaimFails
    | StartDelivery(snapshots: nat)
    | Undecodable(message: string, fault: bool)
    | EnoughClaims
    | TimerFires
    | SeeCancel
    | Exit

  /** Steps of the receiver, of the packaging goroutine and of reconciliation, and the clock. */
  predicate Elsewhere(a: Action) {
    && !a.Restart? && !a.DeliverCrash? && !a.PackagePowerLoss?
    && !a.ClaimDelivery? && !a.Finish? && !a.Fail? && !a.Progress?
  }

  predicate HasTask(s: State, k: DeliveryKey) {
    exists id :: id in s.tasks && s.tasks[id].ticket.k == k
  }

  predicate IsEnvMove(m: Move) {
    || m.Other?
    || m.Cancel?
    || m.PackagingEnds?
  }

  predicate IsTaskMove(m: Move) {
    || m.Report?
    || m.Ends?
    || m.Send?
  }

  predicate IsClaimMove(m: Move) {
    || m.ClaimNext?
    || m.ClaimFails?
    || m.StartDelivery?
    || m.Undecodable?
    || m.EnoughClaims?
  }

  predicate IsLoopMove(m: Move) {
    || m.CheckContext?
    || m.Take?
    || m.ReadPackaging?
    || m.NothingToDrain?
    || m.Reconciled?
    || m.TimerFires?
    || m.SeeCancel?
    || m.Exit?
  }

  ghost predicate EnvAllowed(cfg: Config, s: State, m: Move)
    requires IsEnvMove(m)
  {
    match m
    case Other(a) => Elsewhere(a) && Enabled(cfg, s.w, a)
    case Cancel => true
    case PackagingEnds => s.packaging.Running?
  }

  ghost predicate TaskAllowed(limit: nat, s: State, m: Move)
    requires IsTaskMove(m)
  {
    match m
    case Report(id, _) => id in s.tasks && s.tasks[id].status.Uploading? && s.snapshots > 0
    case Ends(id, _) => id in s.tasks && s.tasks[id].status.Uploading?
    case Send(id) => id in s.tasks && s.tasks[id].status.Finishing? && |s.channel| < 2 * limit
  }

  ghost predicate ClaimAllowed(limit: nat, s: State, m: Move)
    requires IsClaimMove(m)
  {
    match m
    case ClaimNext(k) =>
      s.phase.Claiming? && s.active < limit && IsFirst(DueClaims(s.w.t, Unix(s.w.now)), ClaimRank(s.w.t), k)
    case ClaimFails => s.phase.Claiming? && s.active < limit
    case StartDelivery(_) => s.phase.Holding?
    case Undecodable(_, _) => s.phase.Holding?
    case EnoughClaims => s.phase.Claiming? && (s.active >= limit || DueClaims(s.w.t, Unix(s.w.now)) == {})
  }

  ghost predicate LoopAllowed(s: State, m: Move)
    requires IsLoopMove(m)
  {
    match m
    case CheckContext => s.phase.Head?
    case Take(_) => s.channel != [] && (s.phase.Draining? || s.phase.Waiting? || s.phase.Stopping?)
    case ReadPackaging => s.packaging.Ended? && (s.phase.Draining? || s.phase.Waiting? || s.phase.Stopping?)
    case NothingToDrain => s.phase.Draining? && s.channel == [] && !s.packaging.Ended?
    case Reconciled(_) => s.phase.Reconciling?
    case TimerFires => s.phase.Waiting?
    case SeeCancel => s.phase.Waiting? && s.cancelled
    case Exit => s.phase.Stopping? && s.active == 0 && s.packaging.Read?
  }

  ghost predicate Allowed(cfg: Config, limit: nat, s: State, m: Move) {
    if IsEnvMove(m) then EnvAllowed(cfg, s, m)
    else if IsTaskMove(m) then TaskAllowed(limit, s, m)
    else if IsClaimMove(m) then ClaimAllowed(limit, s, m)
    else LoopAllowed(s, m)
  }

  /** The row update of handlePackageDeliveryEvent for a `done` event, from the ticket's own values. */
  function Outcome(w: World, ticket: Ticket, error: Option<string>): World {
    if error.None? then
      w.(t := MarkDelivered(w.t, ticket.k, ticket.plan.identifier, Unix(w.now), UnixCeil(w.now + ticket.plan.retentionNanos)),
         deliveredNs := w.deliveredNs[ticket.k := w.now])
    else
      w.(t := MarkRetry(w.t, ticket.k, error.value, Unix(w.now + Backoff(ticket.attempt))))
  }

  /** One event taken from the channel. While stopping it is only counted. An event whose row update
      fails or matches no row stops the loop, unless it is a snapshot. */
  function Taken(s: State, fault: bool): State
    requires s.channel != []
  {
    var event := s.channel[0];
    var rest := s.(channel := s.channel[1..]);
    match event
    case ProgressEvent(_, ticket, raw) =>
      if s.phase.Stopping? then rest
      else
        rest.(w := if fault then s.w else s.w.(t := MarkProgress(s.w.t, ticket.k, Snapshot(ticket.attempt, raw))),
              phase := if s.phase.Waiting? then Head else s.phase)
    case DoneEvent(id, ticket, error) =>
      var less := rest.(tasks := Cut(s.tasks, id), taken := s.taken + {id}, active := s.active - 1);
      if s.phase.Stopping? then less
      else if fault || !InDelivery(s.w.t, ticket.k) then less.(phase := Stopping)
      else less.(w := Outcome(s.w, ticket, error), phase := if s.phase.Waiting? then Head else s.phase)
  }

  ghost function AfterEnv(cfg: Config, s: State, m: Move): State
    requires IsEnvMove(m) && EnvAllowed(cfg, s, m)
  {
    match m
    case Other(a) => s.(w := Lifecycle.Apply(cfg, s.w, a))
    case Cancel => s.(cancelled := true)
    case PackagingEnds => s.(packaging := Ended)
  }

  ghost function AfterTask(limit: nat, s: State, m: Move): State
    requires IsTaskMove(m) && TaskAllowed(limit, s, m)
  {
    match m
    case Report(id, raw) =>
      s.(snapshots := s.snapshots - 1,
         channel := if |s.channel| < 2 * limit then s.channel + [ProgressEvent(id, s.tasks[id].ticket, raw)] else s.channel)
    case Ends(id, error) => s.(tasks := s.tasks[id := s.tasks[id].(status := Finishing(error))])
    case Send(id) =>
      var error := s.tasks[id].status.error;
      s.(tasks := s.tasks[id := s.tasks[id].(status := Sent(error))],
         channel := s.channel + [DoneEvent(id, s.tasks[id].ticket, error)])
  }

  ghost function AfterClaim(limit: nat, s: State, m: Move): State
    requires IsClaimMove(m) && ClaimAllowed(limit, s, m)
  {
    match m
    case ClaimNext(k) =>
      var w := s.w.(t := Claim(s.w.t, k));
      s.(w := w, phase := Holding(Ticket(k, w.t.deliveries[k].attempts, w.t.deliveries[k].plan)))
    case ClaimFails => s.(phase := Stopping)
    case StartDelivery(snapshots) =>
      s.(tasks := s.tasks[s.started := Task(s.phase.ticket, Uploading)], started := s.started + 1,
         active := s.active + 1, snapshots := s.snapshots + snapshots, phase := Claiming)
    case Undecodable(message, fault) =>
      if fault || !InDelivery(s.w.t, s.phase.ticket.k) then s.(phase := Stopping)
      else s.(w := Outcome(s.w, s.phase.ticket, Some(message)), phase := Claiming)
    case EnoughClaims => s.(phase := Waiting)
  }

  ghost function AfterLoop(s: State, m: Move): State
    requires IsLoopMove(m) && LoopAllowed(s, m)
  {
    match m
    case CheckContext => s.(phase := if s.cancelled then Stopping else Draining)
    case Take(fault) => Taken(s, fault)
    case ReadPackaging => s.(packaging := Read, phase := Stopping)
    case NothingToDrain => s.(phase := Reconciling)
    case Reconciled(failed) => s.(phase := if failed then Stopping else Claiming)
    case TimerFires => s.(phase := Head)
    case SeeCancel => s.(phase := Stopping)
    case Exit => s.(phase := Stopped)
  }

  ghost function Next(cfg: Config, limit: nat, s: State, m: Move): State
    requires Allowed(cfg, limit, s, m)
  {
    if IsEnvMove(m) then AfterEnv(cfg, s, m)
    else if IsTaskMove(m) then AfterTask(limit, s, m)
    else if IsClaimMove(m) then AfterClaim(limit, s, m)
    else AfterLoop(s, m)
  }

  /** The process has just recovered the interrupted rows. */
  ghost predicate Initial(cfg: Config, s: State) {
    && WorldInv(cfg, s.w)
    && (forall k :: !InDelivery(s.w.t, k))
    && s == State(s.w, map[], 0, {}, [], 0, Running, false, 0, Head)
  }

  ghost predicate IsRun(cfg: Config, limit: nat, states: seq<State>, moves: seq<Move>) {
    && |states| == |moves| + 1
    && Initial(cfg, states[0])
    && forall i :: 0 <= i < |moves| ==> StepAt(cfg, limit, states, moves, i)
  }

  ghost predicate StepAt(cfg: Config, limit: nat, states: seq<State>, moves: seq<Move>, i: nat)
    requires i < |moves| < |states|
  {
    Allowed(cfg, limit, states[i], moves[i]) && states[i + 1] == Next(cfg, limit, states[i], moves[i])
  }

  // ---------- The invariant ----------

  ghost predicate HoldsRow(t: Tables, ticket: Ticket) {
    && InDelivery(t, ticket.k)
    && t.deliveries[ticket.k].attempts == ticket.attempt
    && t.deliveries[ticket.k].plan == ticket.plan
  }

  ghost predicate TaskOk(s: State, id: nat) {
    id in s.tasks ==> id < s.started && HoldsRow(s.w.t, s.tasks[id].ticket)
  }

  ghost predicate Alone(s: State, i: nat, j: nat) {
    i in s.tasks && j in s.tasks && i != j ==> s.tasks[i].ticket.k != s.tasks[j].ticket.k
  }

  /** A recorded snapshot was sent by the attempt that is running. */
  ghost predicate ProgressOk(t: Tables, k: DeliveryKey) {
    k in t.deliveries && t.deliveries[k].progress.Some? ==>
      t.deliveries[k].state.Delivering? && t.deliveries[k].progress.value.attempt == t.deliveries[k].attempts
  }

  /** Unless the loop is stopping, a delivering row has its goroutine or is being claimed. */
  ghost predicate RowOk(s: State, k: DeliveryKey) {
    InDelivery(s.w.t, k) ==>
      || s.phase.Stopping? || s.phase.Stopped?
      || (s.phase.Holding? && s.phase.ticket.k == k)
      || HasTask(s, k)
  }

  /** An event belongs to a live goroutine; behind its `done` nothing of it follows. */
  ghost predicate EventOk(s: State, i: nat)
    requires i < |s.channel|
  {
    var event := s.channel[i];
    && event.id in s.tasks && s.tasks[event.id].ticket == event.ticket
    && (event.DoneEvent? ==>
          && s.tasks[event.id].status == Sent(event.error)
          && forall j :: i < j < |s.channel| ==> s.channel[j].id != event.id)
  }

  ghost predicate HasDone(channel: seq<Event>, id: nat) {
    exists i :: 0 <= i < |channel| && channel[i].DoneEvent? && channel[i].id == id
  }

  ghost predicate SentOk(s: State, id: nat) {
    id in s.tasks && s.tasks[id].status.Sent? ==> HasDone(s.channel, id)
  }

  ghost predicate TasksInv(s: State) {
    && (forall id {:trigger TaskOk(s, id)} :: TaskOk(s, id))
    && (forall i, j {:trigger Alone(s, i, j)} :: Alone(s, i, j))
  }

  ghost predicate RowsInv(s: State) {
    && (forall k {:trigger RowOk(s, k)} :: RowOk(s, k))
    && (forall k {:trigger ProgressOk(s.w.t, k)} :: ProgressOk(s.w.t, k))
  }

  ghost predicate ChannelInv(limit: nat, s: State) {
    && |s.channel| <= 2 * limit
    && (forall i {:trigger EventOk(s, i)} :: 0 <= i < |s.channel| ==> EventOk(s, i))
    && (forall id {:trigger SentOk(s, id)} :: SentOk(s, id))
  }

  ghost predicate CountInv(limit: nat, s: State) {
    && s.active == |s.tasks| <= limit
    && (s.phase.Holding? ==> s.active < limit && HoldsRow(s.w.t, s.phase.ticket) && !HasTask(s, s.phase.ticket.k))
    && (s.phase.Stopped? ==> s.active == 0)
    && (forall id: nat :: id < s.started <==> id in s.tasks || id in s.taken)
    && (forall id :: id in s.taken ==> id !in s.tasks)
  }

  ghost predicate SchedulerInv(limit: nat, s: State) {
    TasksInv(s) && RowsInv(s) && ChannelInv(limit, s) && CountInv(limit, s)
  }
}
