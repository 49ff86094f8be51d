/** Every move keeps the scheduler's invariant. */
module SchedulerInvariant {
  import opened Wrappers
  import opened Clock
  import opened Schema
  import opened TablesInvariant
  import opened Lifecycle
  import opened LifecycleInvariant
  import opened RetrySpacing
  import opened Scheduler

  // ---------- Control ----------

  /** Only the loop's place, the cancellation and the packaging notice change, and no stop is undone. */
  ghost predicate ControlStep(s: State, v: State) {
    && v == s.(packaging := v.packaging, cancelled := v.cancelled, phase := v.phase)
    && (v.phase != s.phase ==>
          && !s.phase.Holding? && !v.phase.Holding?
          && (s.phase.Stopping? || s.phase.Stopped? ==> v.phase.Stopping? || v.phase.Stopped?)
          && (v.phase.Stopped? ==> s.active == 0))
  }

  lemma ControlKeeps(limit: nat, s: State, v: State)
    requires SchedulerInv(limit, s) && ControlStep(s, v)
    ensures SchedulerInv(limit, v)
  {
    SameTasks(s, v);
    SameChannel(limit, s, v);
    forall k ensures RowOk(v, k) {
      assert RowOk(s, k);
      assert HasTask(v, k) == HasTask(s, k);
    }
    if v.phase.Holding? {
      assert HasTask(v, v.phase.ticket.k) == HasTask(s, s.phase.ticket.k);
    }
  }

  lemma SameTasks(s: State, v: State)
    requires TasksInv(s) && v.tasks == s.tasks && v.w == s.w && v.started == s.started
    ensures TasksInv(v)
  {
    forall id ensures TaskOk(v, id) {
      assert TaskOk(s, id);
    }
    forall i, j ensures Alone(v, i, j) {
      assert Alone(s, i, j);
    }
  }

  lemma SameChannel(limit: nat, s: State, v: State)
    requires ChannelInv(limit, s) && v.channel == s.channel && v.tasks == s.tasks
    ensures ChannelInv(limit, v)
  {
    forall i | 0 <= i < |v.channel| ensures EventOk(v, i) {
      assert EventOk(s, i);
    }
    forall id ensures SentOk(v, id) {
      assert SentOk(s, id);
    }
  }

  // ---------- Goroutines ----------

  /** Goroutines change their own status and the channel. */
  ghost predicate SameTickets(s: State, v: State) {
    && v.tasks.Keys == s.tasks.Keys
    && (forall id :: id in s.tasks ==> v.tasks[id].ticket == s.tasks[id].ticket)
    && v == s.(tasks := v.tasks, channel := v.channel, snapshots := v.snapshots)
  }

  lemma GoroutineKeeps(limit: nat, s: State, v: State)
    requires SchedulerInv(limit, s) && SameTickets(s, v) && ChannelInv(limit, v)
    ensures SchedulerInv(limit, v)
  {
    assert |v.tasks| == |v.tasks.Keys| == |s.tasks.Keys| == |s.tasks|;
    forall id ensures TaskOk(v, id) {
      assert TaskOk(s, id);
    }
    forall i, j ensures Alone(v, i, j) {
      assert Alone(s, i, j);
    }
    forall k ensures HasTask(v, k) <==> HasTask(s, k) {
      if HasTask(s, k) {
        var id :| id in s.tasks && s.tasks[id].ticket.k == k;
        assert id in v.tasks && v.tasks[id].ticket.k == k;
      }
    }
    forall k ensures RowOk(v, k) {
      assert RowOk(s, k);
    }
  }

  lemma ReportKeeps(cfg: Config, limit: nat, s: State, m: Move)
    requires m.Report?
    requires SchedulerInv(limit, s) && TaskAllowed(limit, s, m)
    ensures SchedulerInv(limit, AfterTask(limit, s, m))
  {
    var v := AfterTask(limit, s, m);
    forall i | 0 <= i < |v.channel| ensures EventOk(v, i) {
      if i < |s.channel| {
        assert EventOk(s, i);
      }
    }
    forall id ensures SentOk(v, id) {
      assert SentOk(s, id);
      if id in s.tasks && s.tasks[id].status.Sent? {
        DoneStays(s.channel, v.channel, id);
      }
    }
    GoroutineKeeps(limit, s, v);
  }

  lemma DoneStays(a: seq<Event>, b: seq<Event>, id: nat)
    requires HasDone(a, id) && |a| <= |b| && b[..|a|] == a
    ensures HasDone(b, id)
  {
    var i :| 0 <= i < |a| && a[i].DoneEvent? && a[i].id == id;
    assert b[i] == a[i];
  }

  lemma EndsKeeps(cfg: Config, limit: nat, s: State, m: Move)
    requires m.Ends?
    requires SchedulerInv(limit, s) && TaskAllowed(limit, s, m)
    ensures SchedulerInv(limit, AfterTask(limit, s, m))
  {
    var v := AfterTask(limit, s, m);
    forall i | 0 <= i < |v.channel| ensures EventOk(v, i) {
      assert EventOk(s, i);
    }
    forall id ensures SentOk(v, id) {
      assert SentOk(s, id);
    }
    GoroutineKeeps(limit, s, v);
  }

  lemma SendKeeps(cfg: Config, limit: nat, s: State, m: Move)
    requires m.Send?
    requires SchedulerInv(limit, s) && TaskAllowed(limit, s, m)
    ensures SchedulerInv(limit, AfterTask(limit, s, m))
  {
    var v := AfterTask(limit, s, m);
    forall i | 0 <= i < |v.channel| ensures EventOk(v, i) {
      if i < |s.channel| {
        assert EventOk(s, i);
      }
    }
    forall id ensures SentOk(v, id) {
      assert SentOk(s, id);
      if id == m.id {
        assert v.channel[|s.channel|].DoneEvent?;
      } else if id in s.tasks && s.tasks[id].status.Sent? {
        DoneStays(s.channel, v.channel, id);
      }
    }
    GoroutineKeeps(limit, s, v);
  }

  // ---------- Row updates ----------

  lemma SnapshotRows(limit: nat, s: State, v: State)
    requires SchedulerInv(limit, s) && v == s.(w := v.w, phase := v.phase)
    requires s.channel != [] && s.channel[0].ProgressEvent?
    requires v.w == s.w.(t := MarkProgress(s.w.t, s.channel[0].ticket.k, Snapshot(s.channel[0].ticket.attempt, s.channel[0].raw)))
    requires !v.phase.Holding? && !v.phase.Stopped? && (v.phase.Stopping? || !s.phase.Stopping?) && !s.phase.Stopped? && !s.phase.Holding?
    ensures SchedulerInv(limit, v)
  {
    assert EventOk(s, 0) && TaskOk(s, s.channel[0].id);
    forall id ensures TaskOk(v, id) {
      assert TaskOk(s, id);
    }
    forall i, j ensures Alone(v, i, j) {
      assert Alone(s, i, j);
    }
    forall k ensures RowOk(v, k) && ProgressOk(v.w.t, k) {
      assert RowOk(s, k) && ProgressOk(s.w.t, k);
      assert HasTask(v, k) == HasTask(s, k);
    }
    SameChannel(limit, s, v);
  }

  /** Taking a snapshot off the channel, before its row is touched. */
  lemma DropSnapshot(limit: nat, s: State, v: State)
    requires SchedulerInv(limit, s) && s.channel != [] && s.channel[0].ProgressEvent?
    requires v == s.(channel := s.channel[1..])
    ensures SchedulerInv(limit, v)
  {
    forall i | 0 <= i < |v.channel| ensures EventOk(v, i) {
      assert EventOk(s, i + 1);
    }
    forall id ensures SentOk(v, id) {
      assert SentOk(s, id);
      if id in s.tasks && s.tasks[id].status.Sent? {
        var i :| 0 <= i < |s.channel| && s.channel[i].DoneEvent? && s.channel[i].id == id;
        assert v.channel[i - 1] == s.channel[i];
      }
    }
    GoroutineKeeps(limit, s, v);
  }

  ghost predicate OtherRowSame(t: Tables, u: Tables, k: DeliveryKey, j: DeliveryKey) {
    j != k ==> (j in u.deliveries <==> j in t.deliveries) && (j in t.deliveries ==> u.deliveries[j] == t.deliveries[j])
  }

  /** Only the row k may differ. */
  ghost predicate OnlyRow(t: Tables, u: Tables, k: DeliveryKey) {
    forall j {:trigger OtherRowSame(t, u, k, j)} :: OtherRowSame(t, u, k, j)
  }

  lemma OutcomeTouchesOnlyItsRow(w: World, ticket: Ticket, error: Option<string>)
    requires InDelivery(w.t, ticket.k)
    ensures OnlyRow(w.t, Outcome(w, ticket, error).t, ticket.k)
    ensures !InDelivery(Outcome(w, ticket, error).t, ticket.k)
    ensures ProgressOk(Outcome(w, ticket, error).t, ticket.k)
  {
  }

  lemma DoneKeepsTasks(limit: nat, s: State, v: State)
    requires SchedulerInv(limit, s) && s.channel != [] && s.channel[0].DoneEvent?
    requires v.tasks == Cut(s.tasks, s.channel[0].id) && v.started == s.started && v.active == s.active - 1
    requires v.taken == s.taken + {s.channel[0].id} && v.channel == s.channel[1..]
    requires OnlyRow(s.w.t, v.w.t, s.channel[0].ticket.k) && !v.phase.Holding? && !v.phase.Stopped?
    ensures TasksInv(v) && ChannelInv(limit, v) && CountInv(limit, v)
  {
    var id := s.channel[0].id;
    assert EventOk(s, 0) && TaskOk(s, id);
    forall i ensures TaskOk(v, i) {
      assert TaskOk(s, i) && Alone(s, i, id);
      if i in v.tasks {
        assert OtherRowSame(s.w.t, v.w.t, s.channel[0].ticket.k, s.tasks[i].ticket.k);
      }
    }
    forall i, j ensures Alone(v, i, j) {
      assert Alone(s, i, j);
    }
    forall i | 0 <= i < |v.channel| ensures EventOk(v, i) {
      assert EventOk(s, i + 1) && s.channel[i + 1].id != id;
    }
    forall i ensures SentOk(v, i) {
      assert SentOk(s, i);
      if i in v.tasks && s.tasks[i].status.Sent? {
        var at :| 0 <= at < |s.channel| && s.channel[at].DoneEvent? && s.channel[at].id == i;
        assert v.channel[at - 1] == s.channel[at];
      }
    }
    assert v.tasks.Keys == s.tasks.Keys - {id};
  }

  lemma DoneKeepsRows(limit: nat, s: State, v: State)
    requires SchedulerInv(limit, s) && s.channel != [] && s.channel[0].DoneEvent?
    requires v.tasks == Cut(s.tasks, s.channel[0].id)
    requires OnlyRow(s.w.t, v.w.t, s.channel[0].ticket.k) && !s.phase.Holding?
    requires v.phase.Stopping? || (!InDelivery(v.w.t, s.channel[0].ticket.k) && !s.phase.Stopping? && !s.phase.Stopped?)
    requires ProgressOk(v.w.t, s.channel[0].ticket.k)
    ensures RowsInv(v)
  {
    var k := s.channel[0].ticket.k;
    assert EventOk(s, 0);
    forall j ensures RowOk(v, j) && ProgressOk(v.w.t, j) {
      assert RowOk(s, j) && ProgressOk(s.w.t, j) && OtherRowSame(s.w.t, v.w.t, k, j);
      if j != k && HasTask(s, j) {
        var id :| id in s.tasks && s.tasks[id].ticket.k == j;
        assert id in v.tasks && v.tasks[id].ticket.k == j;
      }
    }
  }

  lemma TakeDoneKeeps(cfg: Config, limit: nat, s: State, m: Move)
    requires m.Take? && SchedulerInv(limit, s) && LoopAllowed(s, m) && s.channel[0].DoneEvent?
    ensures SchedulerInv(limit, AfterLoop(s, m))
  {
    var v := AfterLoop(s, m);
    var ticket := s.channel[0].ticket;
    assert EventOk(s, 0) && TaskOk(s, s.channel[0].id) && ProgressOk(s.w.t, ticket.k);
    OutcomeTouchesOnlyItsRow(s.w, ticket, s.channel[0].error);
    DoneKeepsTasks(limit, s, v);
    DoneKeepsRows(limit, s, v);
  }

  lemma TakeSnapshotKeeps(cfg: Config, limit: nat, s: State, m: Move)
    requires m.Take? && SchedulerInv(limit, s) && LoopAllowed(s, m) && s.channel[0].ProgressEvent?
    ensures SchedulerInv(limit, AfterLoop(s, m))
  {
    var v := AfterLoop(s, m);
    if s.phase.Stopping? {
      DropSnapshot(limit, s, v);
    } else if m.fault {
      var u := s.(phase := v.phase);
      SameTasks(s, u);
      SameChannel(limit, s, u);
      forall k ensures RowOk(u, k) {
        assert RowOk(s, k);
        assert HasTask(u, k) == HasTask(s, k);
      }
      DropSnapshot(limit, u, v);
    } else {
      var u := s.(w := v.w, phase := v.phase);
      SnapshotRows(limit, s, u);
      DropSnapshot(limit, u, v);
    }
  }

  // ---------- Claims ----------

  lemma ClaimNextKeeps(cfg: Config, limit: nat, s: State, m: Move)
    requires m.ClaimNext?
    requires SchedulerInv(limit, s) && ClaimAllowed(limit, s, m)
    ensures SchedulerInv(limit, AfterClaim(limit, s, m))
  {
    var v := AfterClaim(limit, s, m);
    assert Claimable(s.w.t, m.k, Unix(s.w.now));
    forall id ensures TaskOk(v, id) {
      assert TaskOk(s, id);
    }
    forall i, j ensures Alone(v, i, j) {
      assert Alone(s, i, j);
    }
    SameChannel(limit, s, v);
    forall k ensures RowOk(v, k) && ProgressOk(v.w.t, k) {
      assert RowOk(s, k) && ProgressOk(s.w.t, k);
      assert HasTask(v, k) == HasTask(s, k);
    }
    forall id | id in v.tasks ensures v.tasks[id].ticket.k != m.k {
      assert TaskOk(s, id);
    }
  }

  lemma StartKeepsTasks(limit: nat, s: State, v: State)
    requires SchedulerInv(limit, s) && s.phase.Holding?
    requires v == s.(tasks := s.tasks[s.started := Task(s.phase.ticket, Uploading)], started := s.started + 1,
                     active := s.active + 1, snapshots := v.snapshots, phase := Claiming)
    ensures TasksInv(v) && CountInv(limit, v) && s.started !in s.tasks
  {
    assert TaskOk(s, s.started);
    forall id ensures TaskOk(v, id) {
      assert TaskOk(s, id);
    }
    forall i, j ensures Alone(v, i, j) {
      assert Alone(s, i, j);
      assert i in s.tasks ==> s.tasks[i].ticket.k != s.phase.ticket.k;
      assert j in s.tasks ==> s.tasks[j].ticket.k != s.phase.ticket.k;
    }
    assert v.tasks.Keys == s.tasks.Keys + {s.started};
  }

  lemma StartKeeps(cfg: Config, limit: nat, s: State, m: Move)
    requires m.StartDelivery?
    requires SchedulerInv(limit, s) && ClaimAllowed(limit, s, m)
    ensures SchedulerInv(limit, AfterClaim(limit, s, m))
  {
    var v := AfterClaim(limit, s, m);
    StartKeepsTasks(limit, s, v);
    forall i | 0 <= i < |v.channel| ensures EventOk(v, i) {
      assert EventOk(s, i);
    }
    forall id ensures SentOk(v, id) {
      assert SentOk(s, id);
    }
    forall k ensures RowOk(v, k) {
      assert RowOk(s, k);
      if HasTask(s, k) {
        var id :| id in s.tasks && s.tasks[id].ticket.k == k;
        assert id in v.tasks && v.tasks[id].ticket.k == k;
      } else if k == s.phase.ticket.k {
        assert s.started in v.tasks && v.tasks[s.started].ticket.k == k;
      }
    }
  }

  lemma UndecodableKeeps(cfg: Config, limit: nat, s: State, m: Move)
    requires m.Undecodable?
    requires SchedulerInv(limit, s) && ClaimAllowed(limit, s, m)
    ensures SchedulerInv(limit, AfterClaim(limit, s, m))
  {
    var v := AfterClaim(limit, s, m);
    var k := s.phase.ticket.k;
    assert ProgressOk(s.w.t, k);
    OutcomeTouchesOnlyItsRow(s.w, s.phase.ticket, Some(m.message));
    assert OnlyRow(s.w.t, v.w.t, k) || v.w == s.w;
    forall id ensures TaskOk(v, id) {
      assert TaskOk(s, id);
      if id in s.tasks && v.w != s.w {
        assert OtherRowSame(s.w.t, v.w.t, k, s.tasks[id].ticket.k);
      }
    }
    forall i, j ensures Alone(v, i, j) {
      assert Alone(s, i, j);
    }
    SameChannel(limit, s, v);
    forall j ensures RowOk(v, j) && ProgressOk(v.w.t, j) {
      assert RowOk(s, j) && ProgressOk(s.w.t, j);
      assert HasTask(v, j) == HasTask(s, j);
      if v.w != s.w {
        assert OtherRowSame(s.w.t, v.w.t, k, j);
      }
    }
  }

  // ---------- The rest of the system ----------

  lemma NewRowIsPending(cfg: Config, w: World, a: Action, k: DeliveryKey)
    requires WorldInv(cfg, w) && Enabled(cfg, w, a) && Elsewhere(a)
    ensures SameRow(w.t, Lifecycle.Apply(cfg, w, a).t, k)
    ensures k !in w.t.deliveries ==> !InDelivery(Lifecycle.Apply(cfg, w, a).t, k) && ProgressOk(Lifecycle.Apply(cfg, w, a).t, k)
  {
    OtherStepLeavesRow(cfg, w, a, k);
    StepKeeps(cfg, w, a);
    var v := Lifecycle.Apply(cfg, w, a);
    if k in v.t.deliveries {
      assert DeliveryOk(v.t, k);
    }
  }

  lemma OtherKeeps(cfg: Config, limit: nat, s: State, m: Move)
    requires m.Other?
    requires WorldInv(cfg, s.w) && SchedulerInv(limit, s) && EnvAllowed(cfg, s, m)
    ensures SchedulerInv(limit, AfterEnv(cfg, s, m))
  {
    var v := AfterEnv(cfg, s, m);
    forall id ensures TaskOk(v, id) {
      assert TaskOk(s, id);
      if id in s.tasks {
        NewRowIsPending(cfg, s.w, m.a, s.tasks[id].ticket.k);
      }
    }
    forall i, j ensures Alone(v, i, j) {
      assert Alone(s, i, j);
    }
    SameChannel(limit, s, v);
    forall k ensures RowOk(v, k) && ProgressOk(v.w.t, k) {
      assert RowOk(s, k) && ProgressOk(s.w.t, k);
      assert HasTask(v, k) == HasTask(s, k);
      NewRowIsPending(cfg, s.w, m.a, k);
    }
    if s.phase.Holding? {
      NewRowIsPending(cfg, s.w, m.a, s.phase.ticket.k);
      assert HasTask(v, s.phase.ticket.k) == HasTask(s, s.phase.ticket.k);
    }
  }

  // ---------- The main loop acts on the tables by Lifecycle steps ----------

  /** The Lifecycle step that a move takes. */
  function StepOf(s: State, m: Move): Option<Action> {
    match m
    case Other(a) => Some(a)
    case ClaimNext(k) => Some(ClaimDelivery(k))
    case Undecodable(message, fault) =>
      if fault || !s.phase.Holding? then None else Some(Fail(s.phase.ticket.k, message))
    case Take(fault) =>
      if fault || s.phase.Stopping? || s.channel == [] then None
      else
        var event := s.channel[0];
        if event.ProgressEvent? then Some(Progress(event.ticket.k, Snapshot(event.ticket.attempt, event.raw)))
        else if event.error.None? then Some(Finish(event.ticket.k))
        else Some(Fail(event.ticket.k, event.error.value))
    case _ => None
  }

  /** A goroutine's own values give the update that the row's values would. */
  lemma OutcomeIsStep(cfg: Config, w: World, ticket: Ticket, error: Option<string>)
    requires HoldsRow(w.t, ticket)
    ensures
      var a := if error.None? then Finish(ticket.k) else Fail(ticket.k, error.value);
      DeliveryEnabled(w, a) && Outcome(w, ticket, error) == DeliveryApply(w, a)
  {
  }

  lemma TakeIsStep(cfg: Config, limit: nat, s: State, m: Move)
    requires m.Take?
    requires SchedulerInv(limit, s) && LoopAllowed(s, m)
    ensures
      var v := AfterLoop(s, m);
      match StepOf(s, m)
      case None => v.w == s.w
      case Some(a) => IsDeliveryAction(a) && DeliveryEnabled(s.w, a) && v.w == DeliveryApply(s.w, a)
  {
    var event := s.channel[0];
    assert EventOk(s, 0) && TaskOk(s, event.id);
    if event.DoneEvent? {
      OutcomeIsStep(cfg, s.w, event.ticket, event.error);
    }
  }

  /** The world takes the given step, or none. */
  ghost predicate Steps(cfg: Config, w: World, v: World, step: Option<Action>) {
    match step
    case None => v == w
    case Some(a) => Enabled(cfg, w, a) && v == Lifecycle.Apply(cfg, w, a)
  }

  lemma DeliveryStep(cfg: Config, w: World, a: Action)
    requires IsDeliveryAction(a) && DeliveryEnabled(w, a)
    ensures Enabled(cfg, w, a) && Lifecycle.Apply(cfg, w, a) == DeliveryApply(w, a)
  {
  }

  /** Every row update is one enabled step of the Lifecycle machine, although it uses the values that
      the goroutine was started with; every other move leaves the world alone. */
  lemma MoveIsLifecycleStep(cfg: Config, limit: nat, s: State, m: Move)
    requires SchedulerInv(limit, s) && Allowed(cfg, limit, s, m)
    ensures Steps(cfg, s.w, Next(cfg, limit, s, m).w, StepOf(s, m))
  {
    if m.Take? {
      TakeIsStep(cfg, limit, s, m);
    } else if IsClaimMove(m) {
      ClaimIsStep(cfg, limit, s, m);
    } else if !m.Other? {
      assert StepOf(s, m).None?;
    }
    if !m.Other? && StepOf(s, m).Some? {
      DeliveryStep(cfg, s.w, StepOf(s, m).value);
    }
  }

  lemma ClaimIsStep(cfg: Config, limit: nat, s: State, m: Move)
    requires IsClaimMove(m) && SchedulerInv(limit, s) && ClaimAllowed(limit, s, m)
    ensures
      var v := AfterClaim(limit, s, m);
      match StepOf(s, m)
      case None => v.w == s.w
      case Some(a) => IsDeliveryAction(a) && DeliveryEnabled(s.w, a) && v.w == DeliveryApply(s.w, a)
  {
    if m.Undecodable? {
      OutcomeIsStep(cfg, s.w, s.phase.ticket, Some(m.message));
    } else if m.ClaimNext? {
      assert Claimable(s.w.t, m.k, Unix(s.w.now));
    } else {
      assert StepOf(s, m).None?;
    }
  }

  lemma MoveKeepsWorld(cfg: Config, limit: nat, s: State, m: Move)
    requires WorldInv(cfg, s.w) && SchedulerInv(limit, s) && Allowed(cfg, limit, s, m)
    ensures WorldInv(cfg, Next(cfg, limit, s, m).w)
  {
    MoveIsLifecycleStep(cfg, limit, s, m);
    if StepOf(s, m).Some? {
      StepKeeps(cfg, s.w, StepOf(s, m).value);
    }
  }

  lemma EnvMoveKeeps(cfg: Config, limit: nat, s: State, m: Move)
    requires IsEnvMove(m) && WorldInv(cfg, s.w) && SchedulerInv(limit, s) && EnvAllowed(cfg, s, m)
    ensures SchedulerInv(limit, AfterEnv(cfg, s, m))
  {
    if m.Other? {
      OtherKeeps(cfg, limit, s, m);
    } else {
      ControlKeeps(limit, s, AfterEnv(cfg, s, m));
    }
  }

  lemma TaskMoveKeeps(cfg: Config, limit: nat, s: State, m: Move)
    requires IsTaskMove(m) && SchedulerInv(limit, s) && TaskAllowed(limit, s, m)
    ensures SchedulerInv(limit, AfterTask(limit, s, m))
  {
    if m.Report? {
      ReportKeeps(cfg, limit, s, m);
    } else if m.Ends? {
      EndsKeeps(cfg, limit, s, m);
    } else {
      SendKeeps(cfg, limit, s, m);
    }
  }

  lemma ClaimMoveKeeps(cfg: Config, limit: nat, s: State, m: Move)
    requires IsClaimMove(m) && SchedulerInv(limit, s) && ClaimAllowed(limit, s, m)
    ensures SchedulerInv(limit, AfterClaim(limit, s, m))
  {
    if m.ClaimNext? {
      ClaimNextKeeps(cfg, limit, s, m);
    } else if m.StartDelivery? {
      StartKeeps(cfg, limit, s, m);
    } else if m.Undecodable? {
      UndecodableKeeps(cfg, limit, s, m);
    } else {
      ControlKeeps(limit, s, AfterClaim(limit, s, m));
    }
  }

  lemma LoopMoveKeeps(cfg: Config, limit: nat, s: State, m: Move)
    requires IsLoopMove(m) && SchedulerInv(limit, s) && LoopAllowed(s, m)
    ensures SchedulerInv(limit, AfterLoop(s, m))
  {
    if m.Take? && s.channel[0].DoneEvent? {
      TakeDoneKeeps(cfg, limit, s, m);
    } else if m.Take? {
      TakeSnapshotKeeps(cfg, limit, s, m);
    } else {
      ControlKeeps(limit, s, AfterLoop(s, m));
    }
  }

  lemma MoveKeeps(cfg: Config, limit: nat, s: State, m: Move)
    requires WorldInv(cfg, s.w) && SchedulerInv(limit, s) && Allowed(cfg, limit, s, m)
    ensures SchedulerInv(limit, Next(cfg, limit, s, m))
  {
    if IsEnvMove(m) {
      EnvMoveKeeps(cfg, limit, s, m);
    } else if IsTaskMove(m) {
      TaskMoveKeeps(cfg, limit, s, m);
    } else if IsClaimMove(m) {
      ClaimMoveKeeps(cfg, limit, s, m);
    } else {
      LoopMoveKeeps(cfg, limit, s, m);
    }
  }

  lemma InitialHolds(cfg: Config, limit: nat, s: State)
    requires Initial(cfg, s)
    ensures SchedulerInv(limit, s)
  {
    forall k ensures RowOk(s, k) && ProgressOk(s.w.t, k) {
      if k in s.w.t.deliveries {
        assert DeliveryOk(s.w.t, k);
      }
    }
  }

  /** The invariant of both machines in every state of every run, whatever the interleaving. */
  lemma {:induction false} SchedulerRunKeeps(cfg: Config, limit: nat, states: seq<State>, moves: seq<Move>, i: nat)
    requires Scheduler.IsRun(cfg, limit, states, moves) && i < |states|
    ensures WorldInv(cfg, states[i].w) && SchedulerInv(limit, states[i])
  {
    if i == 0 {
      InitialHolds(cfg, limit, states[0]);
    } else {
      SchedulerRunKeeps(cfg, limit, states, moves, i - 1);
      assert Scheduler.StepAt(cfg, limit, states, moves, i - 1);
      MoveKeeps(cfg, limit, states[i - 1], moves[i - 1]);
      MoveKeepsWorld(cfg, limit, states[i - 1], moves[i - 1]);
    }
  }
}
