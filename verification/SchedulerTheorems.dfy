/** What the scheduler guarantees at every loop head, for every snapshot it records, and when it stops. */
module SchedulerTheorems {
  import opened Wrappers
  import opened Clock
  import opened Schema
  import opened TablesInvariant
  import opened Lifecycle
  import opened LifecycleInvariant
  import opened Scheduler
  import opened SchedulerInvariant
  import opened Store
  import opened Ordering

  // ---------- Bounded concurrency ----------

  function DeliveringRows(t: Tables): set<DeliveryKey> {
    set k | k in t.deliveries && t.deliveries[k].state.Delivering?
  }

  /** The rows of the given goroutines. */
  function RowsOf(tasks: map<nat, Task>, ids: set<nat>): set<DeliveryKey>
    requires ids <= tasks.Keys
  {
    set id | id in ids :: tasks[id].ticket.k
  }

  function TaskKeys(tasks: map<nat, Task>): set<DeliveryKey> {
    RowsOf(tasks, tasks.Keys)
  }

  ghost predicate Distinct(tasks: map<nat, Task>) {
    forall i, j :: i in tasks && j in tasks && i != j ==> tasks[i].ticket.k != tasks[j].ticket.k
  }

  lemma OneMoreRow(tasks: map<nat, Task>, ids: set<nat>, id: nat)
    requires ids <= tasks.Keys && id in ids && Distinct(tasks)
    ensures RowsOf(tasks, ids) == RowsOf(tasks, ids - {id}) + {tasks[id].ticket.k}
    ensures tasks[id].ticket.k !in RowsOf(tasks, ids - {id})
  {
  }

  lemma {:induction false} DistinctKeys(tasks: map<nat, Task>, ids: set<nat>)
    requires ids <= tasks.Keys && Distinct(tasks)
    ensures |RowsOf(tasks, ids)| == |ids|
    decreases |ids|
  {
    if ids != {} {
      var id :| id in ids;
      DistinctKeys(tasks, ids - {id});
      OneMoreRow(tasks, ids, id);
    }
  }

  /** At every loop head the delivering rows are exactly those of the goroutines whose `done` is not
      processed, one each, and there are `active` of them, within the configured limit. */
  lemma DeliveringMatchesActive(cfg: Config, limit: nat, states: seq<State>, moves: seq<Move>, i: nat)
    requires Scheduler.IsRun(cfg, limit, states, moves) && i < |states| && states[i].phase.Head?
    ensures
      var s := states[i];
      && DeliveringRows(s.w.t) == TaskKeys(s.tasks)
      && |DeliveringRows(s.w.t)| == |s.tasks| == s.active <= limit
      && forall id :: id in s.tasks ==> HoldsRow(s.w.t, s.tasks[id].ticket)
  {
    SchedulerRunKeeps(cfg, limit, states, moves, i);
    var s := states[i];
    forall k ensures k in DeliveringRows(s.w.t) <==> k in TaskKeys(s.tasks) {
      assert RowOk(s, k);
      if k in TaskKeys(s.tasks) {
        var id :| id in s.tasks && s.tasks[id].ticket.k == k;
        assert TaskOk(s, id);
      }
    }
    forall a, b | a in s.tasks && b in s.tasks && a != b ensures s.tasks[a].ticket.k != s.tasks[b].ticket.k {
      assert Alone(s, a, b);
    }
    DistinctKeys(s.tasks, s.tasks.Keys);
    forall id | id in s.tasks ensures HoldsRow(s.w.t, s.tasks[id].ticket) {
      assert TaskOk(s, id);
    }
  }

  /** In every phase no two goroutines deliver the same package to the same sink. */
  lemma OneAttemptInFlight(cfg: Config, limit: nat, states: seq<State>, moves: seq<Move>, i: nat, a: nat, b: nat)
    requires Scheduler.IsRun(cfg, limit, states, moves) && i < |states|
    requires a in states[i].tasks && b in states[i].tasks && a != b
    ensures states[i].tasks[a].ticket.k != states[i].tasks[b].ticket.k
    ensures states[i].active <= limit
  {
    SchedulerRunKeeps(cfg, limit, states, moves, i);
    assert Alone(states[i], a, b);
  }

  // ---------- Progress ----------

  /** A recorded snapshot always comes from the attempt that the row counts now. */
  lemma ProgressIsCurrent(cfg: Config, limit: nat, states: seq<State>, moves: seq<Move>, i: nat, k: DeliveryKey)
    requires Scheduler.IsRun(cfg, limit, states, moves) && i < |states|
    requires k in states[i].w.t.deliveries && states[i].w.t.deliveries[k].progress.Some?
    ensures
      var d := states[i].w.t.deliveries[k];
      d.state.Delivering? && d.progress.value.attempt == d.attempts
  {
    SchedulerRunKeeps(cfg, limit, states, moves, i);
    assert ProgressOk(states[i].w.t, k);
  }

  /** Outside the shutdown an event always finds its row delivering on its own attempt, so that only a
      failing statement can stop the loop there. */
  lemma EventsFindTheirRow(cfg: Config, limit: nat, states: seq<State>, moves: seq<Move>, i: nat)
    requires Scheduler.IsRun(cfg, limit, states, moves) && i < |moves|
    requires moves[i].Take?
    ensures states[i].channel != [] && HoldsRow(states[i].w.t, states[i].channel[0].ticket)
    ensures states[i + 1].phase.Stopping? ==>
      states[i].phase.Stopping? || (moves[i].fault && states[i].channel[0].DoneEvent?)
  {
    SchedulerRunKeeps(cfg, limit, states, moves, i);
    assert Scheduler.StepAt(cfg, limit, states, moves, i);
    assert EventOk(states[i], 0) && TaskOk(states[i], states[i].channel[0].id);
  }

  /** No goroutine's `done` is taken twice. */
  lemma DoneIsTakenOnce(cfg: Config, limit: nat, states: seq<State>, moves: seq<Move>, i: nat)
    requires Scheduler.IsRun(cfg, limit, states, moves) && i < |moves|
    requires moves[i].Take? && states[i].channel != [] && states[i].channel[0].DoneEvent?
    ensures states[i].channel[0].id !in states[i].taken
    ensures states[i + 1].taken == states[i].taken + {states[i].channel[0].id}
  {
    SchedulerRunKeeps(cfg, limit, states, moves, i);
    assert Scheduler.StepAt(cfg, limit, states, moves, i);
    assert EventOk(states[i], 0);
  }

  // ---------- The turns of the main loop ----------

  predicate IsStopping(s: State) {
    s.phase.Stopping? || s.phase.Stopped?
  }

  /** A cancellation that the loop notices, the end of the packaging goroutine, a failing reconciliation,
      a failing claim, or a failing statement that should have recorded an outcome. */
  predicate StopCause(s: State, m: Move) {
    || (m.CheckContext? && s.cancelled)
    || m.SeeCancel?
    || m.ReadPackaging?
    || m == Reconciled(true)
    || m.ClaimFails?
    || (m.Undecodable? && m.fault)
    || (m.Take? && m.fault && s.channel != [] && s.channel[0].DoneEvent?)
  }

  lemma LoopStops(limit: nat, s: State, m: Move)
    requires IsLoopMove(m) && SchedulerInv(limit, s) && LoopAllowed(s, m) && !IsStopping(s)
    ensures IsStopping(AfterLoop(s, m)) <==> StopCause(s, m)
  {
    if m.Take? {
      assert EventOk(s, 0) && TaskOk(s, s.channel[0].id);
    }
  }

  lemma ClaimStops(limit: nat, s: State, m: Move)
    requires IsClaimMove(m) && SchedulerInv(limit, s) && ClaimAllowed(limit, s, m) && !IsStopping(s)
    ensures IsStopping(AfterClaim(limit, s, m)) <==> StopCause(s, m)
  {
  }

  /** The loop begins to stop exactly at these moves. */
  lemma StopsExactly(cfg: Config, limit: nat, s: State, m: Move)
    requires SchedulerInv(limit, s) && Allowed(cfg, limit, s, m) && !IsStopping(s)
    ensures IsStopping(Next(cfg, limit, s, m)) <==> StopCause(s, m)
  {
    if IsEnvMove(m) {
      assert AfterEnv(cfg, s, m).phase == s.phase;
    } else if IsTaskMove(m) {
      assert AfterTask(limit, s, m).phase == s.phase;
    } else if IsClaimMove(m) {
      ClaimStops(limit, s, m);
    } else {
      LoopStops(limit, s, m);
    }
  }

  /** Otherwise a turn drains the channel until it is empty, reconciles, claims until all slots are taken
      or nothing is due, and waits. */
  ghost predicate InTurn(limit: nat, s: State, v: State) {
    || v.phase == s.phase
    || (s.phase.Head? && v.phase.Draining?)
    || (s.phase.Draining? && v.phase.Reconciling? && s.channel == [])
    || (s.phase.Reconciling? && v.phase.Claiming?)
    || (s.phase.Claiming? && v.phase.Holding? && s.active < limit && InDelivery(v.w.t, v.phase.ticket.k))
    || (s.phase.Holding? && v.phase.Claiming? && (s.phase.ticket.k in TaskKeys(v.tasks) || !InDelivery(v.w.t, s.phase.ticket.k)))
    || (s.phase.Claiming? && v.phase.Waiting?
        && (s.active == limit || forall k :: !Claimable(s.w.t, k, Unix(s.w.now))))
    || (s.phase.Waiting? && v.phase.Head?)
  }

  lemma TurnGoesOn(cfg: Config, limit: nat, states: seq<State>, moves: seq<Move>, i: nat)
    requires Scheduler.IsRun(cfg, limit, states, moves) && i < |moves|
    requires !IsStopping(states[i]) && !IsStopping(states[i + 1])
    ensures InTurn(limit, states[i], states[i + 1])
  {
    SchedulerRunKeeps(cfg, limit, states, moves, i);
    assert Scheduler.StepAt(cfg, limit, states, moves, i);
    MoveInTurn(cfg, limit, states[i], moves[i]);
  }

  lemma MoveInTurn(cfg: Config, limit: nat, s: State, m: Move)
    requires SchedulerInv(limit, s) && Allowed(cfg, limit, s, m)
    requires !IsStopping(s) && !IsStopping(Next(cfg, limit, s, m))
    ensures InTurn(limit, s, Next(cfg, limit, s, m))
  {
    var v := Next(cfg, limit, s, m);
    if m.EnoughClaims? {
      forall k | s.active != limit ensures !Claimable(s.w.t, k, Unix(s.w.now)) {
        assert k !in DueClaims(s.w.t, Unix(s.w.now));
      }
    } else if m.StartDelivery? {
      assert s.started in v.tasks && v.tasks[s.started].ticket == s.phase.ticket;
    }
  }

  /** The main loop never blocks before it stops. */
  lemma LoopNeverBlocks(cfg: Config, limit: nat, s: State)
    requires SchedulerInv(limit, s) && !IsStopping(s)
    ensures exists m :: (IsLoopMove(m) || IsClaimMove(m)) && Allowed(cfg, limit, s, m)
  {
    var m := CheckContext;
    match s.phase {
      case Head =>
      case Draining =>
        m := if s.channel != [] then Take(false) else if s.packaging.Ended? then ReadPackaging else NothingToDrain;
      case Reconciling =>
        m := Reconciled(false);
      case Claiming =>
        var due := DueClaims(s.w.t, Unix(s.w.now));
        if s.active < limit && due != {} {
          FirstExists(due, ClaimRank(s.w.t));
          var k :| IsFirst(due, ClaimRank(s.w.t), k);
          m := ClaimNext(k);
        } else {
          m := EnoughClaims;
        }
      case Holding(_) =>
        m := StartDelivery(0);
      case Waiting =>
        m := TimerFires;
      case _ =>
    }
    assert (IsLoopMove(m) || IsClaimMove(m)) && Allowed(cfg, limit, s, m);
  }

  /** Once the context is cancelled at the head of the loop, the loop claims nothing any more: it stays
      there until it stops. */
  lemma {:induction false} CancelledClaimsNothing(cfg: Config, limit: nat, states: seq<State>, moves: seq<Move>, i: nat, j: nat)
    requires Scheduler.IsRun(cfg, limit, states, moves) && i <= j < |states|
    requires states[i].cancelled && states[i].phase.Head?
    ensures states[j].cancelled && (states[j].phase.Head? || IsStopping(states[j]))
    decreases j
  {
    if i < j {
      CancelledClaimsNothing(cfg, limit, states, moves, i, j - 1);
      SchedulerRunKeeps(cfg, limit, states, moves, j - 1);
      assert Scheduler.StepAt(cfg, limit, states, moves, j - 1);
      CancelledMove(cfg, limit, states[j - 1], moves[j - 1]);
    }
  }

  lemma CancelledMove(cfg: Config, limit: nat, s: State, m: Move)
    requires SchedulerInv(limit, s) && Allowed(cfg, limit, s, m)
    requires s.cancelled && (s.phase.Head? || IsStopping(s))
    ensures Next(cfg, limit, s, m).cancelled
    ensures Next(cfg, limit, s, m).phase.Head? || IsStopping(Next(cfg, limit, s, m))
  {
  }

  // ---------- Shutdown ----------

  /** What the shutdown itself and the goroutines it waits for do. */
  predicate IsStopMove(m: Move) {
    m.PackagingEnds? || m.Report? || m.Ends? || m.Send? || m.Take? || m.ReadPackaging? || m.Exit?
  }

  function InStatus(s: State, uploading: bool, finishing: bool): set<nat> {
    set id | id in s.tasks && ((uploading && s.tasks[id].status.Uploading?) || (finishing && s.tasks[id].status.Finishing?))
  }

  /** What is left to wait for. */
  function Remaining(s: State): nat {
    2 * s.snapshots + |s.tasks| + |InStatus(s, true, false)| + 2 * |InStatus(s, true, true)| + |s.channel|
    + (if s.packaging.Running? then 2 else if s.packaging.Ended? then 1 else 0)
    + (if s.phase.Stopped? then 0 else 1)
  }

  lemma EndsRemaining(cfg: Config, limit: nat, s: State, m: Move)
    requires m.Ends?
    requires TaskAllowed(limit, s, m)
    ensures Remaining(AfterTask(limit, s, m)) == Remaining(s) - 1
  {
    var v := AfterTask(limit, s, m);
    assert v.tasks.Keys == s.tasks.Keys;
    assert |v.tasks| == |v.tasks.Keys|;
    assert InStatus(v, true, false) == InStatus(s, true, false) - {m.id};
    assert InStatus(v, true, true) == InStatus(s, true, true);
  }

  lemma SendRemaining(cfg: Config, limit: nat, s: State, m: Move)
    requires m.Send?
    requires TaskAllowed(limit, s, m)
    ensures Remaining(AfterTask(limit, s, m)) == Remaining(s) - 1
  {
    var v := AfterTask(limit, s, m);
    assert v.tasks.Keys == s.tasks.Keys;
    assert |v.tasks| == |v.tasks.Keys|;
    assert InStatus(v, true, false) == InStatus(s, true, false);
    assert InStatus(v, true, true) == InStatus(s, true, true) - {m.id};
  }

  /** Taking an event leaves the goroutines that are still at work alone. */
  lemma TakeDoneRemaining(s: State, v: State, id: nat)
    requires id in s.tasks && s.tasks[id].status.Sent? && s.channel != []
    requires v.tasks == Cut(s.tasks, id) && v.channel == s.channel[1..]
    requires v.snapshots == s.snapshots && v.packaging == s.packaging && !v.phase.Stopped?
    ensures Remaining(v) < Remaining(s) || s.phase.Stopped?
  {
    assert v.tasks.Keys == s.tasks.Keys - {id};
    assert |v.tasks| == |v.tasks.Keys|;
    SameWorkers(s, v);
  }

  lemma SameWorkers(s: State, v: State)
    requires forall id :: id in s.tasks && !s.tasks[id].status.Sent? ==> id in v.tasks && v.tasks[id] == s.tasks[id]
    requires forall id :: id in v.tasks ==> id in s.tasks && v.tasks[id] == s.tasks[id]
    ensures InStatus(v, true, false) == InStatus(s, true, false)
    ensures InStatus(v, true, true) == InStatus(s, true, true)
  {
  }

  lemma TakeRemaining(cfg: Config, limit: nat, s: State, m: Move)
    requires m.Take?
    requires SchedulerInv(limit, s) && LoopAllowed(s, m)
    ensures Remaining(AfterLoop(s, m)) < Remaining(s)
  {
    var v := AfterLoop(s, m);
    assert EventOk(s, 0);
    if s.channel[0].DoneEvent? {
      TakeDoneRemaining(s, v, s.channel[0].id);
    } else {
      assert v.tasks == s.tasks;
      SameWorkers(s, v);
    }
  }

  lemma ControlRemaining(cfg: Config, limit: nat, s: State, m: Move)
    requires Allowed(cfg, limit, s, m) && (m.PackagingEnds? || m.ReadPackaging? || m.Exit? || m.Report?)
    ensures Remaining(Next(cfg, limit, s, m)) < Remaining(s)
  {
    SameWorkers(s, Next(cfg, limit, s, m));
  }

  /** Each of these moves brings a stopping scheduler closer to its end. */
  lemma StopMoveShrinks(cfg: Config, limit: nat, s: State, m: Move)
    requires SchedulerInv(limit, s) && Allowed(cfg, limit, s, m) && IsStopMove(m)
    ensures Remaining(Next(cfg, limit, s, m)) < Remaining(s)
  {
    match m {
      case Ends(_, _) => EndsRemaining(cfg, limit, s, m);
      case Send(_) => SendRemaining(cfg, limit, s, m);
      case Take(_) => TakeRemaining(cfg, limit, s, m);
      case _ => ControlRemaining(cfg, limit, s, m);
    }
  }

  /** and one of them can always happen: the bounded channel and the drain never block each other. */
  lemma StopNeverBlocks(cfg: Config, limit: nat, s: State)
    requires SchedulerInv(limit, s) && s.phase.Stopping?
    ensures exists m :: IsStopMove(m) && Allowed(cfg, limit, s, m)
  {
    if s.channel != [] {
      assert Allowed(cfg, limit, s, Take(false)) && IsStopMove(Take(false));
    } else if s.active == 0 {
      var m := if s.packaging.Running? then PackagingEnds else if s.packaging.Ended? then ReadPackaging else Exit;
      assert Allowed(cfg, limit, s, m) && IsStopMove(m);
    } else {
      assert s.tasks != map[];
      var id :| id in s.tasks;
      assert SentOk(s, id);
      var m := if s.tasks[id].status.Uploading? then Ends(id, None) else Send(id);
      assert Allowed(cfg, limit, s, m) && IsStopMove(m);
    }
  }

  /** Once stopping, always stopping until the end. */
  lemma StopStays(cfg: Config, limit: nat, s: State, m: Move)
    requires Allowed(cfg, limit, s, m) && (s.phase.Stopping? || s.phase.Stopped?)
    ensures Next(cfg, limit, s, m).phase.Stopping? || Next(cfg, limit, s, m).phase.Stopped?
  {
  }

  function StopMoves(moves: seq<Move>): (r: nat)
    ensures r <= |moves|
  {
    if moves == [] then 0
    else StopMoves(moves[..|moves| - 1]) + if IsStopMove(moves[|moves| - 1]) then 1 else 0
  }

  lemma StoppingMove(cfg: Config, limit: nat, s: State, m: Move)
    requires SchedulerInv(limit, s) && Allowed(cfg, limit, s, m) && (s.phase.Stopping? || s.phase.Stopped?)
    ensures Remaining(Next(cfg, limit, s, m)) + (if IsStopMove(m) then 1 else 0) <= Remaining(s)
  {
    if IsStopMove(m) {
      StopMoveShrinks(cfg, limit, s, m);
    } else {
      assert Next(cfg, limit, s, m).tasks == s.tasks;
      SameWorkers(s, Next(cfg, limit, s, m));
    }
  }

  lemma StopMovesNext(moves: seq<Move>, i: nat, j: nat)
    requires i < j <= |moves|
    ensures StopMoves(moves[i..j]) == StopMoves(moves[i..j - 1]) + if IsStopMove(moves[j - 1]) then 1 else 0
  {
    assert moves[i..j][..j - 1 - i] == moves[i..j - 1];
    assert moves[i..j][j - 1 - i] == moves[j - 1];
  }

  /** From the state in which it starts to stop, a run has at most Remaining moves of the shutdown and
      its goroutines, whatever else goes on. With StopNeverBlocks: the shutdown ends. */
  lemma {:induction false} StopEnds(cfg: Config, limit: nat, states: seq<State>, moves: seq<Move>, i: nat, j: nat)
    requires Scheduler.IsRun(cfg, limit, states, moves) && i <= j < |states| && states[i].phase.Stopping?
    ensures states[j].phase.Stopping? || states[j].phase.Stopped?
    ensures StopMoves(moves[i..j]) + Remaining(states[j]) <= Remaining(states[i])
    decreases j
  {
    if i < j {
      StopEnds(cfg, limit, states, moves, i, j - 1);
      SchedulerRunKeeps(cfg, limit, states, moves, j - 1);
      assert Scheduler.StepAt(cfg, limit, states, moves, j - 1);
      StopStays(cfg, limit, states[j - 1], moves[j - 1]);
      StoppingMove(cfg, limit, states[j - 1], moves[j - 1]);
      StopMovesNext(moves, i, j);
    }
  }

  /** When the loop has returned, the `done` of every goroutine ever started was taken. */
  lemma StoppedHasTakenAll(cfg: Config, limit: nat, states: seq<State>, moves: seq<Move>, i: nat)
    requires Scheduler.IsRun(cfg, limit, states, moves) && i < |states| && states[i].phase.Stopped?
    ensures states[i].tasks == map[] && states[i].channel == []
    ensures forall id: nat :: id in states[i].taken <==> id < states[i].started
  {
    SchedulerRunKeeps(cfg, limit, states, moves, i);
    var s := states[i];
    assert s.tasks == map[];
    EventsHaveTasks(limit, s);
  }

  lemma EventsHaveTasks(limit: nat, s: State)
    requires ChannelInv(limit, s)
    ensures s.channel != [] ==> s.channel[0].id in s.tasks
  {
    if s.channel != [] {
      assert EventOk(s, 0);
    }
  }

  /** The next start: rows left delivering become due again at once, delivered rows keep every column,
      and no row is left delivering. */
  lemma RestartRecovers(cfg: Config, w: World, k: DeliveryKey)
    requires WorldInv(cfg, w)
    ensures
      var v := Lifecycle.Apply(cfg, w, Restart);
      && WorldInv(cfg, v)
      && !InDelivery(v.t, k)
      && (InDelivery(w.t, k) ==> v.t.deliveries[k].state.RetryWait? && Claimable(v.t, k, Unix(v.now)))
      && (k in w.t.deliveries && !InDelivery(w.t, k) ==> v.t.deliveries[k] == w.t.deliveries[k])
      && Initial(cfg, State(v, map[], 0, {}, [], 0, Running, false, 0, Head))
  {
    RestartKeeps(cfg, w, Restart);
    if k in w.t.deliveries {
      assert DeliveryOk(w.t, k);
    }
  }
}
