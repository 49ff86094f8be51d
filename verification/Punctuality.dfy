/**
 When rows become due. A fresh row is due at once, a failed attempt costs at most its backoff, and a
 package may go exactly when the longest retention of its sinks is over.
 */
module Punctuality {
  import opened Wrappers
  import opened Clock
  import opened Schema
  import opened TablesInvariant
  import opened Evolution
  import opened Reservation
  import opened Lifecycle
  import opened LifecycleInvariant
  import opened LifecycleTheorems

  // ---------- The columns that say when ----------

  ghost predicate DeliveryTimely(t: Tables, k: DeliveryKey, second: int) {
    k in t.deliveries ==>
      && (t.deliveries[k].state.Pending? ==> t.deliveries[k].nextAttempt == 0)
      && (t.deliveries[k].state.RetryWait? ==> t.deliveries[k].nextAttempt <= second + 3600)
  }

  ghost predicate BuildTimely(t: Tables, p: PackageId, second: int) {
    IsBuilding(t, p) ==>
      && t.packages[p].nextBuildAt <= second + 3600
      && (t.packages[p].buildAttempts == 0 && t.packages[p].buildError.None? ==> t.packages[p].nextBuildAt == 0)
  }

  ghost predicate SourceTimely(t: Tables, o: string, second: int) {
    o in t.artifacts ==>
      && t.artifacts[o].nextSourcePurge <= second + 61
      && (t.artifacts[o].sourcePurgedAt.None? && t.artifacts[o].sourcePurgeError.None? ==>
            t.artifacts[o].nextSourcePurge == 0)
  }

  ghost predicate PurgeTimely(t: Tables, p: PackageId, second: int) {
    p in t.packages && t.packages[p].purgedAt.None? ==>
      && (t.packages[p].purgeError.None? ==> t.packages[p].nextPurgeAt == t.packages[p].purgeAfter)
      && (t.packages[p].purgeError.Some? ==>
            && AllDelivered(t, p)
            && t.packages[p].nextPurgeAt.Some? && t.packages[p].nextPurgeAt.value <= second + 61)
  }

  ghost predicate Timely(t: Tables, second: int) {
    && (forall k {:trigger DeliveryTimely(t, k, second)} :: DeliveryTimely(t, k, second))
    && (forall p {:trigger BuildTimely(t, p, second)} :: BuildTimely(t, p, second))
    && (forall o {:trigger SourceTimely(t, o, second)} :: SourceTimely(t, o, second))
    && (forall p {:trigger PurgeTimely(t, p, second)} :: PurgeTimely(t, p, second))
  }

  lemma StaysTimely(t: Tables, second: int, later: int)
    requires Timely(t, second) && second <= later
    ensures Timely(t, later)
  {
    forall k ensures DeliveryTimely(t, k, later) {
      assert DeliveryTimely(t, k, second);
    }
    forall p ensures BuildTimely(t, p, later) && PurgeTimely(t, p, later) {
      assert BuildTimely(t, p, second) && PurgeTimely(t, p, second);
    }
    forall o ensures SourceTimely(t, o, later) {
      assert SourceTimely(t, o, second);
    }
  }

  // ---------- Statements ----------

  /** Statements on artifacts and flags. */
  lemma ArtifactsTimely(t: Tables, u: Tables, second: int)
    requires Timely(t, second) && u == t.(artifacts := u.artifacts, draining := u.draining)
    requires forall o {:trigger SourceTimely(u, o, second)} :: SourceTimely(u, o, second)
    ensures Timely(u, second)
  {
    forall k ensures DeliveryTimely(u, k, second) {
      assert DeliveryTimely(t, k, second);
    }
    forall p ensures BuildTimely(u, p, second) && PurgeTimely(u, p, second) {
      assert BuildTimely(t, p, second) && PurgeTimely(t, p, second);
      assert AllDelivered(t, p) ==> AllDelivered(u, p);
    }
  }

  /** Statements on one package row. */
  lemma PackageTimely(t: Tables, u: Tables, p: PackageId, second: int)
    requires Timely(t, second) && p in t.packages && p in u.packages
    requires u == t.(packages := t.packages[p := u.packages[p]])
    requires BuildTimely(u, p, second) && PurgeTimely(u, p, second)
    ensures Timely(u, second)
  {
    forall k ensures DeliveryTimely(u, k, second) {
      assert DeliveryTimely(t, k, second);
    }
    forall q ensures BuildTimely(u, q, second) && PurgeTimely(u, q, second) {
      assert BuildTimely(t, q, second) && PurgeTimely(t, q, second);
      assert AllDelivered(t, q) ==> AllDelivered(u, q);
    }
    forall o ensures SourceTimely(u, o, second) {
      assert SourceTimely(t, o, second);
    }
  }

  /** Statements on delivery rows. */
  lemma DeliveriesTimely(t: Tables, u: Tables, second: int)
    requires Timely(t, second) && Evolves(t, u)
    requires u == t.(deliveries := u.deliveries)
    requires forall k {:trigger DeliveryTimely(u, k, second)} :: DeliveryTimely(u, k, second)
    ensures Timely(u, second)
  {
    forall p ensures BuildTimely(u, p, second) && PurgeTimely(u, p, second) {
      assert BuildTimely(t, p, second) && PurgeTimely(t, p, second);
      if p in t.packages && AllDelivered(t, p) {
        StaysDelivered(t, u, p);
      }
    }
    forall o ensures SourceTimely(u, o, second) {
      assert SourceTimely(t, o, second);
    }
  }

  lemma AddedIsTimely(t: Tables, o: string, row: Artifact, second: int)
    requires Timely(t, second) && 0 <= second
    requires row.nextSourcePurge == 0
    ensures Timely(AddArtifact(t, o, row), second)
  {
    var u := AddArtifact(t, o, row);
    forall x ensures SourceTimely(u, x, second) {
      assert SourceTimely(t, x, second);
    }
    ArtifactsTimely(t, u, second);
  }

  /** The retry seconds lie within an hour, and those of purges within a minute and a second. */
  lemma RetriesAreNear(now: int, attempt: int)
    ensures Unix(now + Backoff(attempt)) <= Unix(now) + 3600
    ensures UnixCeil(now + MINUTE) <= Unix(now) + 61
  {
    UnixAddSeconds(now, 60 * BackoffMinutes(attempt));
    UnixAddSeconds(now, 60);
  }

  lemma ReservedIsTimely(t: Tables, p: PackageId, plan: Plan, keep: bool, now: int, second: int)
    requires Inv(t) && Selectable(t, p) && Timely(t, second) && 0 <= second
    ensures Timely(InsertReservation(t, p, plan, keep, now), second)
  {
    var u := InsertReservation(t, p, plan, keep, now);
    ReserveAddsFreshRows(t, p, plan, keep, now);
    ReservationEvolves(t, p, plan, keep, now);
    forall k ensures DeliveryTimely(u, k, second) {
      assert DeliveryTimely(t, k, second);
    }
    forall q ensures BuildTimely(u, q, second) && PurgeTimely(u, q, second) {
      assert BuildTimely(t, q, second) && PurgeTimely(t, q, second);
      if q in t.packages && AllDelivered(t, q) {
        StaysDelivered(t, u, q);
      }
    }
    forall o ensures SourceTimely(u, o, second) {
      assert SourceTimely(t, o, second);
      ReserveRow(t, p, plan, keep, now, o);
    }
  }

  lemma CallIsTimely(t0: Tables, project: string, pack: Packaging, plan: Option<Plan>, now: int, fault: bool, second: int)
    requires Inv(t0) && Timely(t0, second) && 0 <= second
    ensures Timely(ReservePackage(t0, project, pack, Always(plan), now, fault).0, second)
  {
    var (u, result) := ReservePackage(t0, project, pack, Always(plan), now, fault);
    var t := EnsureProject(t0, project);
    forall o ensures SourceTimely(u.(artifacts := t0.artifacts), o, second) {
      assert SourceTimely(t0, o, second);
    }
    forall o ensures SourceTimely(t, o, second) {
      assert SourceTimely(t0, o, second);
    }
    if result.Reserved? {
      ReservedPackage(t0, project, pack, Always(plan), now, fault);
      ArtifactsTimely(t0, t, second);
      ReservedIsTimely(t, result.packageId, plan.value, Choose(t, project, pack, now).draining, Unix(now), second);
    } else {
      ReservePackageKeeps(t0, project, pack, Always(plan), now, fault);
      assert u == u.(artifacts := t0.artifacts);
      ArtifactsTimely(t0, u, second);
    }
  }

  // ---------- Steps ----------

  ghost predicate OnTime(w: World) {
    0 <= w.now && Timely(w.t, Unix(w.now))
  }

  lemma ReceiverStepOnTime(w: World, a: Action)
    requires IsReceiverAction(a) && ReceiverEnabled(w, a) && OnTime(w)
    ensures OnTime(ReceiverApply(w, a))
  {
    if a.Tick? {
      UnixMonotone(w.now, a.to);
      StaysTimely(w.t, Unix(w.now), Unix(a.to));
    } else if a.Index? {
      AddedIsTimely(w.t, a.o, RowOf(a.o, w.ledger[a.o].info, w.receipts[a.o]), Unix(w.now));
    } else if a.Discover? {
      AddedIsTimely(w.t, a.o, RowOf(a.o, w.infos[a.o], w.receipts[a.o]), Unix(w.now));
    } else {
      assert ReceiverApply(w, a).t == w.t;
    }
  }

  lemma DeliveryRowStepOnTime(w: World, a: Action)
    requires a.Restart? || a.ClaimDelivery? || a.Fail? || a.Progress?
    requires DeliveryEnabled(w, a) && Inv(w.t) && OnTime(w)
    ensures OnTime(DeliveryApply(w, a))
  {
    var v := DeliveryApply(w, a);
    if a.Restart? {
      RecoverEvolves(w.t, Unix(w.now));
    } else {
      DeliveryStatementsEvolve(w.t, a.k);
      RetriesAreNear(w.now, w.t.deliveries[a.k].attempts);
    }
    forall k ensures DeliveryTimely(v.t, k, Unix(w.now)) {
      assert DeliveryTimely(w.t, k, Unix(w.now));
    }
    DeliveriesTimely(w.t, v.t, Unix(w.now));
  }

  lemma FinishPurgeTimely(w: World, k: DeliveryKey, p: PackageId, purgeAfter: int)
    requires InDelivery(w.t, k) && Inv(w.t) && OnTime(w)
    ensures
      var u := MarkDelivered(w.t, k, w.t.deliveries[k].plan.identifier, Unix(w.now), purgeAfter);
      BuildTimely(u, p, Unix(w.now)) && PurgeTimely(u, p, Unix(w.now))
  {
    assert BuildTimely(w.t, p, Unix(w.now)) && PurgeTimely(w.t, p, Unix(w.now));
    MarkDeliveredEvolves(w.t, k, w.t.deliveries[k].plan.identifier, Unix(w.now), purgeAfter);
    if p in w.t.packages && AllDelivered(w.t, p) {
      StaysDelivered(w.t, MarkDelivered(w.t, k, w.t.deliveries[k].plan.identifier, Unix(w.now), purgeAfter), p);
    }
  }

  lemma FinishOnTime(w: World, a: Action)
    requires a.Finish? && DeliveryEnabled(w, a) && Inv(w.t) && OnTime(w)
    ensures OnTime(DeliveryApply(w, a))
  {
    var v := DeliveryApply(w, a);
    var second := Unix(w.now);
    forall p ensures BuildTimely(v.t, p, second) && PurgeTimely(v.t, p, second) {
      FinishPurgeTimely(w, a.k, p, UnixCeil(w.now + w.t.deliveries[a.k].plan.retentionNanos));
    }
    forall k ensures DeliveryTimely(v.t, k, second) {
      assert DeliveryTimely(w.t, k, second);
    }
    forall o ensures SourceTimely(v.t, o, second) {
      assert SourceTimely(w.t, o, second);
    }
  }

  lemma DeliveryStepOnTime(w: World, a: Action)
    requires IsDeliveryAction(a) && DeliveryEnabled(w, a) && Inv(w.t) && OnTime(w)
    ensures OnTime(DeliveryApply(w, a))
  {
    if a.Finish? {
      FinishOnTime(w, a);
    } else if a.DeliverCrash? || a.PackagePowerLoss? {
      assert DeliveryApply(w, a).t == w.t;
    } else {
      DeliveryRowStepOnTime(w, a);
    }
  }

  lemma PackageRowStepOnTime(cfg: Config, w: World, a: Action)
    requires a.ClaimBuild? || a.SealIt? || a.BuildRetry?
    requires BuildEnabled(cfg, w, a) && PackerOk(w) && OnTime(w)
    ensures OnTime(BuildApply(cfg, w, a))
  {
    var p := if a.ClaimBuild? then a.p else w.packer.p;
    assert BuildTimely(w.t, p, Unix(w.now)) && PurgeTimely(w.t, p, Unix(w.now));
    RetriesAreNear(w.now, w.t.packages[p].buildAttempts);
    var v := BuildApply(cfg, w, a);
    assert AllDelivered(w.t, p) ==> AllDelivered(v.t, p);
    PackageTimely(w.t, v.t, p, Unix(w.now));
  }

  lemma IsolateOnTime(t: Tables, p: PackageId, invalid: map<string, string>, second: int)
    requires Timely(t, second) && IsBuilding(t, p)
    ensures Timely(Isolate(t, p, invalid), second)
  {
    var u := Isolate(t, p, invalid);
    var v := t.(artifacts := u.artifacts);
    forall o ensures SourceTimely(v, o, second) {
      assert SourceTimely(t, o, second);
    }
    ArtifactsTimely(t, v, second);
    assert BuildTimely(v, p, second) && PurgeTimely(v, p, second);
    var x := v.(packages := u.packages);
    assert AllDelivered(v, p) ==> AllDelivered(x, p);
    PackageTimely(v, x, p, second);
    SameButMembers(x, u, second);
  }

  lemma SameButMembers(t: Tables, u: Tables, second: int)
    requires Timely(t, second) && u == t.(members := u.members)
    ensures Timely(u, second)
  {
    forall k ensures DeliveryTimely(u, k, second) {
      assert DeliveryTimely(t, k, second);
    }
    forall p ensures BuildTimely(u, p, second) && PurgeTimely(u, p, second) {
      assert BuildTimely(t, p, second) && PurgeTimely(t, p, second);
      assert AllDelivered(t, p) ==> AllDelivered(u, p);
    }
    forall o ensures SourceTimely(u, o, second) {
      assert SourceTimely(t, o, second);
    }
  }

  lemma BuildStepOnTime(cfg: Config, w: World, a: Action)
    requires IsBuildAction(a) && BuildEnabled(cfg, w, a) && Inv(w.t) && PackerOk(w) && OnTime(w)
    ensures OnTime(BuildApply(cfg, w, a))
  {
    if a.CallReserve? {
      UnixMonotone(0, w.now);
      CallIsTimely(w.t, a.project, cfg[a.project], a.plan, w.now, a.fault, Unix(w.now));
    } else if a.IsolateMembers? {
      IsolateOnTime(w.t, w.packer.p, a.invalid, Unix(w.now));
    } else if a.ClaimBuild? || a.SealIt? || a.BuildRetry? {
      PackageRowStepOnTime(cfg, w, a);
    } else {
      assert BuildApply(cfg, w, a).t == w.t;
    }
  }

  lemma SourceStepOnTime(w: World, a: Action)
    requires (a.SourcePurged? || a.SourceRetry?) && PurgeEnabled(w, a) && OnTime(w)
    ensures OnTime(PurgeApply(w, a))
  {
    var v := PurgeApply(w, a);
    RetriesAreNear(w.now, 0);
    forall o ensures SourceTimely(v.t, o, Unix(w.now)) {
      assert SourceTimely(w.t, o, Unix(w.now));
    }
    ArtifactsTimely(w.t, v.t, Unix(w.now));
  }

  lemma UnlinkStepOnTime(w: World, a: Action)
    requires (a.PackagePurged? || a.PurgeRetry?) && PurgeEnabled(w, a) && PackerOk(w) && OnTime(w)
    ensures OnTime(PurgeApply(w, a))
  {
    var v := PurgeApply(w, a);
    var p := w.packer.p;
    RetriesAreNear(w.now, 0);
    assert BuildTimely(w.t, p, Unix(w.now)) && PurgeTimely(w.t, p, Unix(w.now));
    assert AllDelivered(v.t, p);
    PackageTimely(w.t, v.t, p, Unix(w.now));
  }

  lemma PurgeStepOnTime(w: World, a: Action)
    requires IsPurgeAction(a) && PurgeEnabled(w, a) && PackerOk(w) && OnTime(w)
    ensures OnTime(PurgeApply(w, a))
  {
    if a.SourcePurged? || a.SourceRetry? {
      SourceStepOnTime(w, a);
    } else if a.PackagePurged? || a.PurgeRetry? {
      UnlinkStepOnTime(w, a);
    } else {
      assert PurgeApply(w, a).t == w.t;
    }
  }

  lemma StepOnTime(cfg: Config, w: World, a: Action)
    requires WorldInv(cfg, w) && Enabled(cfg, w, a) && OnTime(w)
    ensures OnTime(Apply(cfg, w, a))
  {
    if IsReceiverAction(a) {
      ReceiverStepOnTime(w, a);
    } else if IsDeliveryAction(a) {
      DeliveryStepOnTime(w, a);
    } else if IsBuildAction(a) {
      BuildStepOnTime(cfg, w, a);
    } else {
      PurgeStepOnTime(w, a);
    }
  }

  lemma {:induction false} AlwaysOnTime(cfg: Config, worlds: seq<World>, actions: seq<Action>, i: nat)
    requires IsRun(cfg, worlds, actions) && i < |worlds|
    ensures OnTime(worlds[i])
  {
    if i > 0 {
      AlwaysOnTime(cfg, worlds, actions, i - 1);
      RunKeeps(cfg, worlds, actions, i - 1);
      assert StepAt(cfg, worlds, actions, i - 1);
      StepOnTime(cfg, worlds[i - 1], actions[i - 1]);
    }
  }

  // ---------- Failed attempts ----------

  /** A build that failed is due again when the backoff of its attempts is over, a source or a package that
      could not be removed in the first whole second a minute later. */
  lemma FailureIsRecorded(cfg: Config, worlds: seq<World>, actions: seq<Action>, i: nat)
    requires IsRun(cfg, worlds, actions) && i < |actions|
    ensures actions[i].BuildRetry? ==> worlds[i].packer.Broken? && BuildPutOff(worlds[i], worlds[i + 1], worlds[i].packer.p)
    ensures actions[i].SourceRetry? ==>
      worlds[i].packer.RemovingSource? && SourcePutOff(worlds[i], worlds[i + 1], worlds[i].packer.o)
    ensures actions[i].PurgeRetry? ==>
      worlds[i].packer.Unlinking? && PurgePutOff(worlds[i], worlds[i + 1], worlds[i].packer.p)
  {
    RunKeeps(cfg, worlds, actions, i);
    assert StepAt(cfg, worlds, actions, i);
    if actions[i].BuildRetry? {
      RetryPutsOff(cfg, worlds[i], actions[i]);
    } else if actions[i].SourceRetry? || actions[i].PurgeRetry? {
      PurgeFailurePutsOff(worlds[i], actions[i]);
    }
  }

  ghost predicate BuildPutOff(w: World, v: World, p: PackageId) {
    && IsBuilding(w.t, p) && IsBuilding(v.t, p) && v.packer.AtRest?
    && v.t.packages[p].buildAttempts == w.t.packages[p].buildAttempts
    && IsRetrySecond(v.t.packages[p].nextBuildAt, w.now, w.t.packages[p].buildAttempts)
  }

  ghost predicate SourcePutOff(w: World, v: World, o: string) {
    o in w.t.artifacts && w.t.artifacts[o].sourcePurgedAt.None? ==>
      && o in v.t.artifacts && v.t.artifacts[o].sourcePurgedAt.None? && v.packer.AtRest?
      && IsFirstSecond(v.t.artifacts[o].nextSourcePurge, w.now + MINUTE)
  }

  ghost predicate PurgePutOff(w: World, v: World, p: PackageId) {
    && Unpurged(w.t, p) && Unpurged(v.t, p) && v.packer.AtRest?
    && v.t.packages[p].nextPurgeAt.Some? && IsFirstSecond(v.t.packages[p].nextPurgeAt.value, w.now + MINUTE)
  }

  lemma RetryPutsOff(cfg: Config, w: World, a: Action)
    requires a.BuildRetry? && BuildEnabled(cfg, w, a) && PackerOk(w)
    ensures BuildPutOff(w, BuildApply(cfg, w, a), w.packer.p)
  {
    BackoffIsRetrySecond(w.now, w.t.packages[w.packer.p].buildAttempts);
  }

  lemma PurgeFailurePutsOff(w: World, a: Action)
    requires (a.SourceRetry? || a.PurgeRetry?) && PurgeEnabled(w, a) && PackerOk(w)
    ensures a.SourceRetry? ==> SourcePutOff(w, PurgeApply(w, a), w.packer.o)
    ensures a.PurgeRetry? ==> PurgePutOff(w, PurgeApply(w, a), w.packer.p)
  {
    UnixCeilIsFirstSecond(w.now + MINUTE);
  }

  // ---------- Due at once, or soon ----------

  /** Whenever a package is sealed, its delivery, unless it is delivered or being tried, can be claimed:
      at once if it was never tried, and otherwise within an hour. */
  lemma DeliveryIsDue(cfg: Config, worlds: seq<World>, actions: seq<Action>, i: nat, k: DeliveryKey)
    requires IsRun(cfg, worlds, actions) && i < |worlds|
    requires k in worlds[i].t.deliveries && IsSealed(worlds[i].t, k.packageId)
    requires !worlds[i].t.deliveries[k].state.Delivered? && !worlds[i].t.deliveries[k].state.Delivering?
    ensures Claimable(worlds[i].t, k, Unix(worlds[i].now) + 3600)
    ensures worlds[i].t.deliveries[k].state.Pending? ==> Claimable(worlds[i].t, k, Unix(worlds[i].now))
  {
    AlwaysOnTime(cfg, worlds, actions, i);
    UnixMonotone(0, worlds[i].now);
    assert DeliveryTimely(worlds[i].t, k, Unix(worlds[i].now));
  }

  /** A package under construction is due at once if its build never failed, and otherwise within an hour. */
  lemma BuildIsDue(cfg: Config, worlds: seq<World>, actions: seq<Action>, i: nat, p: PackageId)
    requires IsRun(cfg, worlds, actions) && i < |worlds| && IsBuilding(worlds[i].t, p)
    ensures BuildDue(worlds[i].t, p, Unix(worlds[i].now) + 3600)
    ensures worlds[i].t.packages[p].buildAttempts == 0 && worlds[i].t.packages[p].buildError.None? ==>
      BuildDue(worlds[i].t, p, Unix(worlds[i].now))
  {
    AlwaysOnTime(cfg, worlds, actions, i);
    UnixMonotone(0, worlds[i].now);
    assert BuildTimely(worlds[i].t, p, Unix(worlds[i].now));
  }

  /** The source of a sealed package's member is due for purge at once if removing it never failed, and
      otherwise within a minute and a second. */
  lemma SourceIsDue(cfg: Config, worlds: seq<World>, actions: seq<Action>, i: nat, o: string)
    requires IsRun(cfg, worlds, actions) && i < |worlds|
    requires Released(worlds[i].t, o) && worlds[i].t.artifacts[o].sourcePurgedAt.None?
    ensures SourcePurgeDue(worlds[i].t, o, Unix(worlds[i].now) + 61)
    ensures worlds[i].t.artifacts[o].sourcePurgeError.None? ==> SourcePurgeDue(worlds[i].t, o, Unix(worlds[i].now))
  {
    AlwaysOnTime(cfg, worlds, actions, i);
    UnixMonotone(0, worlds[i].now);
    assert SourceTimely(worlds[i].t, o, Unix(worlds[i].now));
  }

  /** A package that a step of the run reserves has fresh rows with the plan that was resolved for it, and
      is due for its build at once. */
  lemma ReservationIsFresh(cfg: Config, worlds: seq<World>, actions: seq<Action>, i: nat, p: PackageId)
    requires IsRun(cfg, worlds, actions) && i < |actions| && actions[i].CallReserve?
    requires p !in worlds[i].t.packages && p in worlds[i + 1].t.packages
    ensures actions[i].plan.Some?
    ensures AddsFreshRows(worlds[i].t, worlds[i + 1].t, p, actions[i].plan.value, Unix(worlds[i].now))
    ensures BuildDue(worlds[i + 1].t, p, Unix(worlds[i + 1].now))
  {
    RunKeeps(cfg, worlds, actions, i);
    assert StepAt(cfg, worlds, actions, i);
    var (w, a) := (worlds[i], actions[i]);
    ReserveStepAdds(cfg, w, a, p);
    BuildIsDue(cfg, worlds, actions, i + 1, p);
  }

  lemma ReserveStepAdds(cfg: Config, w: World, a: Action, p: PackageId)
    requires a.CallReserve? && BuildEnabled(cfg, w, a) && Inv(w.t)
    requires p !in w.t.packages && p in BuildApply(cfg, w, a).t.packages
    ensures a.plan.Some? && AddsFreshRows(w.t, BuildApply(cfg, w, a).t, p, a.plan.value, Unix(w.now))
  {
    var result := ReservePackage(w.t, a.project, cfg[a.project], Always(a.plan), w.now, a.fault).1;
    ReservePackageKeeps(w.t, a.project, cfg[a.project], Always(a.plan), w.now, a.fault);
    if result.Reserved? {
      ReservedPackage(w.t, a.project, cfg[a.project], Always(a.plan), w.now, a.fault);
    }
  }

  // ---------- The purge deadline ----------

  /** The second at which the retention of a delivered sink is over. */
  ghost predicate EndsRetention(w: World, k: DeliveryKey, p: PackageId, second: int) {
    && k.packageId == p && k in w.t.deliveries && w.t.deliveries[k].state.Delivered? && k in w.deliveredNs
    && IsFirstSecond(second, w.deliveredNs[k] + w.t.deliveries[k].plan.retentionNanos)
  }

  ghost predicate Attained(w: World, p: PackageId) {
    p in w.t.packages && w.t.packages[p].purgeAfter.Some? ==>
      exists k :: EndsRetention(w, k, p, w.t.packages[p].purgeAfter.value)
  }

  ghost predicate AllAttained(w: World) {
    forall p {:trigger Attained(w, p)} :: Attained(w, p)
  }

  /** Existing deadlines stay, and new packages have none. */
  ghost predicate SameDeadlineAt(t: Tables, u: Tables, p: PackageId) {
    p in u.packages ==>
      if p in t.packages then u.packages[p].purgeAfter == t.packages[p].purgeAfter else u.packages[p].purgeAfter.None?
  }

  ghost predicate SameDeadlineColumns(t: Tables, u: Tables) {
    forall p {:trigger SameDeadlineAt(t, u, p)} :: SameDeadlineAt(t, u, p)
  }

  lemma StaysAttained(w: World, v: World)
    requires AllAttained(w) && Evolves(w.t, v.t) && v.deliveredNs == w.deliveredNs && SameDeadlineColumns(w.t, v.t)
    ensures AllAttained(v)
  {
    forall p ensures Attained(v, p) {
      assert Attained(w, p) && SameDeadlineAt(w.t, v.t, p);
      if p in v.t.packages && v.t.packages[p].purgeAfter.Some? {
        var k :| EndsRetention(w, k, p, w.t.packages[p].purgeAfter.value);
        assert DeliveryEvolves(w.t, v.t, k);
        assert EndsRetention(v, k, p, v.t.packages[p].purgeAfter.value);
      }
    }
  }

  lemma FinishAttains(w: World, a: Action)
    requires a.Finish? && DeliveryEnabled(w, a) && AllAttained(w)
    ensures AllAttained(DeliveryApply(w, a))
  {
    var v := DeliveryApply(w, a);
    var k := a.k;
    UnixCeilIsFirstSecond(w.now + w.t.deliveries[k].plan.retentionNanos);
    forall p ensures Attained(v, p) {
      assert Attained(w, p);
      if p in v.t.packages && v.t.packages[p].purgeAfter.Some? {
        if v.t.packages[p].purgeAfter == w.t.packages[p].purgeAfter {
          var j :| EndsRetention(w, j, p, w.t.packages[p].purgeAfter.value);
          assert EndsRetention(v, j, p, v.t.packages[p].purgeAfter.value);
        } else {
          assert EndsRetention(v, k, p, v.t.packages[p].purgeAfter.value);
        }
      }
    }
  }

  lemma ReserveKeepsDeadlines(t: Tables, project: string, pack: Packaging, plan: Option<Plan>, now: int, fault: bool)
    requires Inv(t)
    ensures SameDeadlineColumns(t, ReservePackage(t, project, pack, Always(plan), now, fault).0)
  {
    ReservePackageKeeps(t, project, pack, Always(plan), now, fault);
    if ReservePackage(t, project, pack, Always(plan), now, fault).1.Reserved? {
      ReservedPackage(t, project, pack, Always(plan), now, fault);
    }
  }

  lemma BuildStepKeepsDeadlines(cfg: Config, w: World, a: Action)
    requires IsBuildAction(a) && BuildEnabled(cfg, w, a) && Inv(w.t)
    ensures KeepsDeadlines(w, BuildApply(cfg, w, a))
  {
    if a.CallReserve? {
      ReserveKeepsDeadlines(w.t, a.project, cfg[a.project], a.plan, w.now, a.fault);
    }
  }

  ghost predicate KeepsDeadlines(w: World, v: World) {
    SameDeadlineColumns(w.t, v.t) && v.deliveredNs == w.deliveredNs
  }

  lemma SamePackagesKeepDeadlines(w: World, v: World)
    requires v.t.packages == w.t.packages && v.deliveredNs == w.deliveredNs
    ensures KeepsDeadlines(w, v)
  {
  }

  lemma ReceiverStepKeepsDeadlines(w: World, a: Action)
    requires IsReceiverAction(a) && ReceiverEnabled(w, a)
    ensures KeepsDeadlines(w, ReceiverApply(w, a))
  {
    SamePackagesKeepDeadlines(w, ReceiverApply(w, a));
  }

  lemma DeliveryStepKeepsDeadlines(w: World, a: Action)
    requires IsDeliveryAction(a) && DeliveryEnabled(w, a) && !a.Finish?
    ensures KeepsDeadlines(w, DeliveryApply(w, a))
  {
    SamePackagesKeepDeadlines(w, DeliveryApply(w, a));
  }

  lemma OtherStepKeepsDeadlines(cfg: Config, w: World, a: Action)
    requires Inv(w.t) && Enabled(cfg, w, a) && !a.Finish?
    ensures KeepsDeadlines(w, Apply(cfg, w, a))
  {
    if IsReceiverAction(a) {
      ReceiverStepKeepsDeadlines(w, a);
    } else if IsDeliveryAction(a) {
      DeliveryStepKeepsDeadlines(w, a);
    } else if IsBuildAction(a) {
      BuildStepKeepsDeadlines(cfg, w, a);
    } else {
      PurgeStepKeepsDeadlines(w, a);
    }
  }

  lemma PurgeStepKeepsDeadlines(w: World, a: Action)
    requires IsPurgeAction(a) && PurgeEnabled(w, a)
    ensures KeepsDeadlines(w, PurgeApply(w, a))
  {
  }

  lemma StepAttains(cfg: Config, w: World, a: Action)
    requires WorldInv(cfg, w) && Enabled(cfg, w, a) && AllAttained(w)
    ensures AllAttained(Apply(cfg, w, a))
  {
    if a.Finish? {
      FinishAttains(w, a);
    } else {
      StepAdvances(cfg, w, a);
      OtherStepKeepsDeadlines(cfg, w, a);
      StaysAttained(w, Apply(cfg, w, a));
    }
  }

  lemma {:induction false} AlwaysAttained(cfg: Config, worlds: seq<World>, actions: seq<Action>, i: nat)
    requires IsRun(cfg, worlds, actions) && i < |worlds|
    ensures AllAttained(worlds[i])
  {
    if i > 0 {
      AlwaysAttained(cfg, worlds, actions, i - 1);
      RunKeeps(cfg, worlds, actions, i - 1);
      assert StepAt(cfg, worlds, actions, i - 1);
      StepAttains(cfg, worlds[i - 1], actions[i - 1]);
    }
  }

  /** In every reachable state a package's purge deadline is the largest of the seconds at which the
      retention of its delivered sinks is over: none ends later, and one ends then. Without a delivered
      sink there is none. Until an attempt to purge fails, the next attempt is due at that second. */
  lemma PurgeDeadlineIsExact(cfg: Config, worlds: seq<World>, actions: seq<Action>, i: nat, p: PackageId)
    requires IsRun(cfg, worlds, actions) && i < |worlds| && p in worlds[i].t.packages
    ensures
      var w := worlds[i];
      var row := w.t.packages[p];
      && (row.purgeAfter.Some? <==> exists k :: k in w.t.deliveries && k.packageId == p && w.t.deliveries[k].state.Delivered?)
      && (row.purgeAfter.Some? ==> exists k :: EndsRetention(w, k, p, row.purgeAfter.value))
      && (row.purgeAfter.Some? ==>
            forall k, second :: EndsRetention(w, k, p, second) ==> second <= row.purgeAfter.value)
      && (row.purgedAt.None? && row.purgeError.None? ==> row.nextPurgeAt == row.purgeAfter)
  {
    var w := worlds[i];
    RunKeeps(cfg, worlds, actions, i);
    AlwaysAttained(cfg, worlds, actions, i);
    AlwaysOnTime(cfg, worlds, actions, i);
    assert Attained(w, p) && PurgeTimely(w.t, p, Unix(w.now));
    forall k | k in w.t.deliveries && k.packageId == p && w.t.deliveries[k].state.Delivered?
      ensures w.t.packages[p].purgeAfter.Some?
    {
      assert DeadlineOk(w, k);
    }
    forall k, second | EndsRetention(w, k, p, second) ensures second <= w.t.packages[p].purgeAfter.value {
      assert DeadlineOk(w, k);
      UnixCeilIsFirstSecond(w.deliveredNs[k] + w.t.deliveries[k].plan.retentionNanos);
    }
  }

  /** All sinks of the package are delivered, and the retention of each is over at this second. */
  ghost predicate RetentionsOver(w: World, p: PackageId, second: int) {
    forall k :: k in w.t.deliveries && k.packageId == p ==>
      && w.t.deliveries[k].state.Delivered? && k in w.deliveredNs
      && w.deliveredNs[k] + w.t.deliveries[k].plan.retentionNanos <= second * SECOND
  }

  /** A sealed package that no attempt failed to purge is due at a second if and only if all its sinks are
      delivered and the retention of each is over by then. */
  lemma PurgeIsDueExactly(cfg: Config, worlds: seq<World>, actions: seq<Action>, i: nat, p: PackageId, second: int)
    requires IsRun(cfg, worlds, actions) && i < |worlds| && Unpurged(worlds[i].t, p)
    requires worlds[i].t.packages[p].purgeError.None?
    ensures PurgeDue(worlds[i].t, p, second) <==> RetentionsOver(worlds[i], p, second)
  {
    var w := worlds[i];
    RunKeeps(cfg, worlds, actions, i);
    PurgeDeadlineIsExact(cfg, worlds, actions, i, p);
    if PurgeDue(w.t, p, second) {
      DueMeansOver(w, p, second);
    }
    if RetentionsOver(w, p, second) {
      OverMeansDue(w, p, second);
    }
  }

  lemma DueMeansOver(w: World, p: PackageId, second: int)
    requires DeadlinesInv(w) && PurgeDue(w.t, p, second)
    requires w.t.packages[p].nextPurgeAt == w.t.packages[p].purgeAfter
    ensures RetentionsOver(w, p, second)
  {
    forall k | k in w.t.deliveries && k.packageId == p
      ensures k in w.deliveredNs && w.deliveredNs[k] + w.t.deliveries[k].plan.retentionNanos <= second * SECOND
    {
      assert DeadlineOk(w, k);
      UnixCeilIsFirstSecond(w.deliveredNs[k] + w.t.deliveries[k].plan.retentionNanos);
    }
  }

  lemma OverMeansDue(w: World, p: PackageId, second: int)
    requires Inv(w.t) && DeadlinesInv(w) && Unpurged(w.t, p) && RetentionsOver(w, p, second)
    requires w.t.packages[p].nextPurgeAt == w.t.packages[p].purgeAfter
    requires w.t.packages[p].purgeAfter.Some? ==> exists k :: EndsRetention(w, k, p, w.t.packages[p].purgeAfter.value)
    ensures PurgeDue(w.t, p, second)
  {
    assert PackageOk(w.t, p) && DeadlineOk(w, DeliveryKey(p, SINK));
    var k :| EndsRetention(w, k, p, w.t.packages[p].purgeAfter.value);
  }
}
