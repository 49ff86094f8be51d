/**
 What a delivery goroutine's end does to its row: a row is delivered only by an upload that succeeded, a
 failed one waits for its backoff, and both record what the goroutine reported.
 */
module DeliveryOutcome {
  import opened Wrappers
  import opened Clock
  import opened Schema
  import opened TablesInvariant
  import opened Store
  import opened Lifecycle
  import opened LifecycleInvariant
  import opened RetrySpacing
  import opened Scheduler
  import opened SchedulerInvariant
  import opened SchedulerTheorems

  // ---------- The two outcomes in the row's columns ----------

  /** Delivered under the identifier of its plan, at this second; no other delivery row changes. */
  ghost predicate RecordsDelivered(t: Tables, u: Tables, k: DeliveryKey, now: int) {
    && k in t.deliveries && k in u.deliveries && u.deliveries == t.deliveries[k := u.deliveries[k]]
    && var before, row := t.deliveries[k], u.deliveries[k];
       && row.state.Delivered? && row.remoteId == Some(before.plan.identifier)
       && row.deliveredAt == Some(Unix(now)) && row.lastError.None? && row.progress.None?
       && row.plan == before.plan && row.attempts == before.attempts
  }

  /** Waiting with the beginning of its error, until the backoff of its attempts is over; nothing else
      changes. */
  ghost predicate RecordsFailure(t: Tables, u: Tables, k: DeliveryKey, message: string, now: int) {
    && k in t.deliveries && k in u.deliveries && u == t.(deliveries := t.deliveries[k := u.deliveries[k]])
    && var before, row := t.deliveries[k], u.deliveries[k];
       && row.state.RetryWait? && row.lastError == Some(First4096(message))
       && IsRetrySecond(row.nextAttempt, now, before.attempts)
       && row.deliveredAt == before.deliveredAt && row.progress.None?
       && row.plan == before.plan && row.attempts == before.attempts
  }

  ghost predicate Records(w: World, v: World, k: DeliveryKey, error: Option<string>) {
    match error
    case None => RecordsDelivered(w.t, v.t, k, w.now)
    case Some(message) => RecordsFailure(w.t, v.t, k, message, w.now)
  }

  /** In the Lifecycle machine: the end of a delivery without and with an error. */
  lemma EndIsRecorded(cfg: Config, worlds: seq<World>, actions: seq<Action>, i: nat)
    requires Lifecycle.IsRun(cfg, worlds, actions) && i < |actions|
    ensures actions[i].Finish? ==> Records(worlds[i], worlds[i + 1], actions[i].k, None)
    ensures actions[i].Fail? ==> Records(worlds[i], worlds[i + 1], actions[i].k, Some(actions[i].message))
  {
    assert Lifecycle.StepAt(cfg, worlds, actions, i);
    if actions[i].Finish? || actions[i].Fail? {
      StepRecords(worlds[i], actions[i]);
    }
  }

  lemma StepRecords(w: World, a: Action)
    requires (a.Finish? || a.Fail?) && DeliveryEnabled(w, a)
    ensures Records(w, DeliveryApply(w, a), a.k, if a.Finish? then None else Some(a.message))
  {
    BackoffIsRetrySecond(w.now, w.t.deliveries[a.k].attempts);
  }

  // ---------- Taking a goroutine's end from the channel ----------

  ghost predicate TakesDone(s: State, m: Move) {
    m.Take? && s.channel != [] && s.channel[0].DoneEvent?
  }

  /** Outside the shutdown the main loop records exactly what the goroutine reported, for the row that it
      was started for; while stopping, or when the statement fails, it records nothing. */
  lemma DoneIsRecorded(cfg: Config, limit: nat, states: seq<State>, moves: seq<Move>, i: nat)
    requires Scheduler.IsRun(cfg, limit, states, moves) && i < |moves| && TakesDone(states[i], moves[i])
    ensures
      if states[i].phase.Stopping? || moves[i].fault then states[i + 1].w == states[i].w
      else Records(states[i].w, states[i + 1].w, states[i].channel[0].ticket.k, states[i].channel[0].error)
  {
    EventsFindTheirRow(cfg, limit, states, moves, i);
    assert Scheduler.StepAt(cfg, limit, states, moves, i);
    var s := states[i];
    if !s.phase.Stopping? && !moves[i].fault {
      OutcomeRecords(cfg, s.w, s.channel[0].ticket, s.channel[0].error);
    }
  }

  lemma OutcomeRecords(cfg: Config, w: World, ticket: Ticket, error: Option<string>)
    requires HoldsRow(w.t, ticket)
    ensures Records(w, Outcome(w, ticket, error), ticket.k, error)
  {
    OutcomeIsStep(cfg, w, ticket, error);
    StepRecords(w, if error.None? then Finish(ticket.k) else Fail(ticket.k, error.value));
  }

  /** A snapshot is queued exactly if the channel has room, behind all earlier events, and is dropped
      otherwise. */
  lemma SnapshotIsQueued(cfg: Config, limit: nat, states: seq<State>, moves: seq<Move>, i: nat)
    requires Scheduler.IsRun(cfg, limit, states, moves) && i < |moves| && moves[i].Report?
    ensures moves[i].id in states[i].tasks
    ensures states[i + 1].channel ==
      if |states[i].channel| < 2 * limit
      then states[i].channel + [ProgressEvent(moves[i].id, states[i].tasks[moves[i].id].ticket, moves[i].raw)]
      else states[i].channel
  {
    assert Scheduler.StepAt(cfg, limit, states, moves, i);
  }

  /** Taken outside the shutdown it becomes the row's progress, unless the statement fails. */
  lemma SnapshotIsRecorded(cfg: Config, limit: nat, states: seq<State>, moves: seq<Move>, i: nat)
    requires Scheduler.IsRun(cfg, limit, states, moves) && i < |moves|
    requires moves[i].Take? && states[i].channel != [] && states[i].channel[0].ProgressEvent?
    ensures states[i + 1].channel == states[i].channel[1..]
    ensures
      var event := states[i].channel[0];
      var (t, u) := (states[i].w.t, states[i + 1].w.t);
      if states[i].phase.Stopping? || moves[i].fault then u == t
      else
        && event.ticket.k in u.deliveries && event.ticket.k in t.deliveries
        && u.deliveries[event.ticket.k].progress == Some(Snapshot(t.deliveries[event.ticket.k].attempts, event.raw))
        && u.deliveries[event.ticket.k].state == t.deliveries[event.ticket.k].state
  {
    EventsFindTheirRow(cfg, limit, states, moves, i);
    assert Scheduler.StepAt(cfg, limit, states, moves, i);
  }

  /** A row whose plan does not decode waits like one whose upload failed. */
  lemma UndecodableIsRecorded(cfg: Config, limit: nat, states: seq<State>, moves: seq<Move>, i: nat)
    requires Scheduler.IsRun(cfg, limit, states, moves) && i < |moves| && moves[i].Undecodable?
    ensures states[i].phase.Holding?
    ensures
      if moves[i].fault then states[i + 1].w == states[i].w
      else Records(states[i].w, states[i + 1].w, states[i].phase.ticket.k, Some(moves[i].message))
  {
    SchedulerRunKeeps(cfg, limit, states, moves, i);
    assert Scheduler.StepAt(cfg, limit, states, moves, i);
    var s := states[i];
    if !moves[i].fault {
      OutcomeRecords(cfg, s.w, s.phase.ticket, Some(moves[i].message));
    }
  }

  // ---------- Where a goroutine's report comes from ----------

  /** Before i the upload of goroutine `id`, started for this ticket, ended with this error or none. */
  ghost predicate UploadEnded(states: seq<State>, moves: seq<Move>, i: nat, id: nat, ticket: Ticket, error: Option<string>) {
    exists a: nat :: UploadEndedAt(states, moves, i, id, ticket, error, a)
  }

  ghost predicate UploadEndedAt(states: seq<State>, moves: seq<Move>, i: nat, id: nat, ticket: Ticket,
                                error: Option<string>, a: nat)
  {
    && a < i <= |moves| < |states|
    && moves[a] == Ends(id, error) && id in states[a].tasks && states[a].tasks[id].ticket == ticket
  }

  ghost predicate Reports(s: State, id: nat, ticket: Ticket, error: Option<string>) {
    && id in s.tasks && s.tasks[id].ticket == ticket
    && (s.tasks[id].status == Finishing(error) || s.tasks[id].status == Sent(error))
  }

  lemma ReportStep(cfg: Config, limit: nat, s: State, m: Move, id: nat, ticket: Ticket, error: Option<string>)
    requires SchedulerInv(limit, s) && Allowed(cfg, limit, s, m)
    requires Reports(Next(cfg, limit, s, m), id, ticket, error)
    ensures Reports(s, id, ticket, error) || (m == Ends(id, error) && id in s.tasks && s.tasks[id].ticket == ticket)
  {
    if !IsTaskMove(m) {
      OtherMoveReportsNot(cfg, limit, s, m, id);
    }
  }

  lemma OtherMoveReportsNot(cfg: Config, limit: nat, s: State, m: Move, id: nat)
    requires Allowed(cfg, limit, s, m) && !IsTaskMove(m)
    ensures
      var v := Next(cfg, limit, s, m);
      id in v.tasks && !v.tasks[id].status.Uploading? ==> id in s.tasks && v.tasks[id] == s.tasks[id]
  {
  }

  lemma {:induction false} ReportIsTheEnd(cfg: Config, limit: nat, states: seq<State>, moves: seq<Move>, i: nat,
                                          id: nat, ticket: Ticket, error: Option<string>)
    requires Scheduler.IsRun(cfg, limit, states, moves) && i < |states| && Reports(states[i], id, ticket, error)
    ensures UploadEnded(states, moves, i, id, ticket, error)
  {
    if i > 0 {
      SchedulerRunKeeps(cfg, limit, states, moves, i - 1);
      assert Scheduler.StepAt(cfg, limit, states, moves, i - 1);
      ReportStep(cfg, limit, states[i - 1], moves[i - 1], id, ticket, error);
      if Reports(states[i - 1], id, ticket, error) {
        ReportIsTheEnd(cfg, limit, states, moves, i - 1, id, ticket, error);
        var a: nat :| UploadEndedAt(states, moves, i - 1, id, ticket, error, a);
        assert UploadEndedAt(states, moves, i, id, ticket, error, a);
      } else {
        assert UploadEndedAt(states, moves, i, id, ticket, error, i - 1);
      }
    }
  }

  // ---------- Delivered rows ----------

  predicate IsDelivered(t: Tables, k: DeliveryKey) {
    k in t.deliveries && t.deliveries[k].state.Delivered?
  }

  lemma OtherStepDeliversNot(cfg: Config, w: World, a: Action, k: DeliveryKey)
    requires WorldInv(cfg, w) && Enabled(cfg, w, a) && !IsDelivered(w.t, k) && !Touches(a, k)
    ensures !IsDelivered(Lifecycle.Apply(cfg, w, a).t, k)
  {
    OtherStepLeavesRow(cfg, w, a, k);
    StepKeeps(cfg, w, a);
    var v := Lifecycle.Apply(cfg, w, a);
    if k in v.t.deliveries {
      assert DeliveryOk(v.t, k);
    }
  }

  lemma OnlyFinishDelivers(cfg: Config, w: World, a: Action, k: DeliveryKey)
    requires WorldInv(cfg, w) && Enabled(cfg, w, a) && !IsDelivered(w.t, k)
    ensures IsDelivered(Lifecycle.Apply(cfg, w, a).t, k) ==> a == Finish(k)
  {
    if !Touches(a, k) {
      OtherStepDeliversNot(cfg, w, a, k);
    }
  }

  /** In the Lifecycle machine: a delivered row was finished by some step before. */
  lemma {:induction false} DeliveredWasFinished(cfg: Config, worlds: seq<World>, actions: seq<Action>, i: nat, k: DeliveryKey)
    requires Lifecycle.IsRun(cfg, worlds, actions) && i < |worlds| && IsDelivered(worlds[i].t, k)
    ensures Finish(k) in actions[..i]
  {
    if i > 0 {
      RunKeeps(cfg, worlds, actions, i - 1);
      assert Lifecycle.StepAt(cfg, worlds, actions, i - 1);
      assert actions[..i] == actions[..i - 1] + [actions[i - 1]];
      if IsDelivered(worlds[i - 1].t, k) {
        DeliveredWasFinished(cfg, worlds, actions, i - 1, k);
      } else {
        OnlyFinishDelivers(cfg, worlds[i - 1], actions[i - 1], k);
      }
    }
  }

  /** Before i the main loop took, for this row, the end of a goroutine whose upload had succeeded. */
  ghost predicate SuccessTaken(states: seq<State>, moves: seq<Move>, i: nat, k: DeliveryKey) {
    exists b: nat :: SuccessTakenAt(states, moves, i, k, b)
  }

  ghost predicate SuccessTakenAt(states: seq<State>, moves: seq<Move>, i: nat, k: DeliveryKey, b: nat) {
    && b < i <= |moves| < |states| && TakesDone(states[b], moves[b])
    && var event := states[b].channel[0];
       && event.error.None? && event.ticket.k == k
       && UploadEnded(states, moves, b, event.id, event.ticket, None)
  }

  lemma MoveDelivers(cfg: Config, limit: nat, s: State, m: Move, k: DeliveryKey)
    requires WorldInv(cfg, s.w) && SchedulerInv(limit, s) && Allowed(cfg, limit, s, m)
    requires !IsDelivered(s.w.t, k) && IsDelivered(Next(cfg, limit, s, m).w.t, k)
    ensures TakesDone(s, m) && s.channel[0].error.None? && s.channel[0].ticket.k == k
    ensures Reports(s, s.channel[0].id, s.channel[0].ticket, None)
  {
    MoveIsLifecycleStep(cfg, limit, s, m);
    if StepOf(s, m).Some? {
      OnlyFinishDelivers(cfg, s.w, StepOf(s, m).value, k);
    }
    assert EventOk(s, 0);
  }

  /** A row that is delivered was so when the process started, or an upload of it has succeeded: the main
      loop took that goroutine's end, and the goroutine had ended without an error. */
  lemma {:induction false} DeliveredMeansSucceeded(cfg: Config, limit: nat, states: seq<State>, moves: seq<Move>,
                                                   i: nat, k: DeliveryKey)
    requires Scheduler.IsRun(cfg, limit, states, moves) && i < |states| && IsDelivered(states[i].w.t, k)
    ensures IsDelivered(states[0].w.t, k) || SuccessTaken(states, moves, i, k)
  {
    if i > 0 {
      SchedulerRunKeeps(cfg, limit, states, moves, i - 1);
      assert Scheduler.StepAt(cfg, limit, states, moves, i - 1);
      if IsDelivered(states[i - 1].w.t, k) {
        DeliveredMeansSucceeded(cfg, limit, states, moves, i - 1, k);
        if !IsDelivered(states[0].w.t, k) {
          var b: nat :| SuccessTakenAt(states, moves, i - 1, k, b);
          assert SuccessTakenAt(states, moves, i, k, b);
        }
      } else {
        MoveDelivers(cfg, limit, states[i - 1], moves[i - 1], k);
        var event := states[i - 1].channel[0];
        ReportIsTheEnd(cfg, limit, states, moves, i - 1, event.id, event.ticket, None);
        assert SuccessTakenAt(states, moves, i, k, i - 1);
      }
    }
  }
}
