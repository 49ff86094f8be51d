/**
 How far apart the attempts of one delivery lie. Between two restarts of the deliver process the
 backoffs add up: 63 minutes over the first six failures, then one hour each.
 */
module RetrySpacing {
  import opened Wrappers
  import opened Clock
  import opened Schema
  import opened TablesInvariant
  import opened Reservation
  import opened Lifecycle
  import opened LifecycleInvariant

  predicate Touches(a: Action, k: DeliveryKey) {
    || a.Restart?
    || (a.ClaimDelivery? && a.k == k)
    || (a.Finish? && a.k == k)
    || (a.Fail? && a.k == k)
    || (a.Progress? && a.k == k)
  }

  /** The row is the same, or was inserted by this step. */
  ghost predicate SameRow(t: Tables, u: Tables, k: DeliveryKey) {
    && (k in t.deliveries ==> k in u.deliveries && u.deliveries[k] == t.deliveries[k])
    && (k in u.deliveries && k !in t.deliveries ==> u.deliveries[k].attempts == 0)
  }

  lemma InsertionLeavesRow(t: Tables, p: PackageId, plan: Plan, keep: bool, now: int, k: DeliveryKey)
    requires Inv(t) && Selectable(t, p)
    ensures SameRow(t, InsertReservation(t, p, plan, keep, now), k)
  {
    ReserveTables(t, p, plan, keep, now);
    if k in t.deliveries {
      assert DeliveryOk(t, k);
    }
  }

  lemma CallLeavesRow(t0: Tables, project: string, pack: Packaging, plan: Option<Plan>, now: int, fault: bool, k: DeliveryKey)
    requires Inv(t0)
    ensures SameRow(t0, ReservePackage(t0, project, pack, Always(plan), now, fault).0, k)
  {
    ReservePackageKeeps(t0, project, pack, Always(plan), now, fault);
    var (u, result) := ReservePackage(t0, project, pack, Always(plan), now, fault);
    if result.Reserved? {
      ReservedPackage(t0, project, pack, Always(plan), now, fault);
      var t := EnsureProject(t0, project);
      InsertionLeavesRow(t, result.packageId, plan.value, Choose(t, project, pack, now).draining, Unix(now), k);
    }
  }

  lemma BuildStepLeavesRow(cfg: Config, w: World, a: Action, k: DeliveryKey)
    requires IsBuildAction(a) && Inv(w.t) && BuildEnabled(cfg, w, a)
    ensures SameRow(w.t, BuildApply(cfg, w, a).t, k)
  {
    if a.CallReserve? {
      CallLeavesRow(w.t, a.project, cfg[a.project], a.plan, w.now, a.fault, k);
    }
  }

  lemma PurgeStepLeavesRow(w: World, a: Action, k: DeliveryKey)
    requires IsPurgeAction(a) && PurgeEnabled(w, a)
    ensures SameRow(w.t, PurgeApply(w, a).t, k)
  {
  }

  lemma DeliveryStepLeavesRow(w: World, a: Action, k: DeliveryKey)
    requires IsDeliveryAction(a) && DeliveryEnabled(w, a) && !Touches(a, k)
    ensures SameRow(w.t, DeliveryApply(w, a).t, k)
  {
  }

  lemma OtherStepLeavesRow(cfg: Config, w: World, a: Action, k: DeliveryKey)
    requires WorldInv(cfg, w) && Enabled(cfg, w, a) && !Touches(a, k)
    ensures SameRow(w.t, Apply(cfg, w, a).t, k)
  {
    if IsReceiverAction(a) {
      assert ReceiverApply(w, a).t.deliveries == w.t.deliveries;
    } else if IsDeliveryAction(a) {
      DeliveryStepLeavesRow(w, a, k);
    } else if IsBuildAction(a) {
      BuildStepLeavesRow(cfg, w, a, k);
    } else {
      PurgeStepLeavesRow(w, a, k);
    }
  }

  // ---------- The attempts column ----------

  function Claims(actions: seq<Action>, k: DeliveryKey): (r: nat)
    ensures r <= |actions|
  {
    if actions == [] then 0
    else
      var last := actions[|actions| - 1];
      Claims(actions[..|actions| - 1], k) + if last.ClaimDelivery? && last.k == k then 1 else 0
  }

  function Attempts(t: Tables, k: DeliveryKey): nat {
    if k in t.deliveries then t.deliveries[k].attempts else 0
  }

  lemma StepCounts(cfg: Config, w: World, a: Action, k: DeliveryKey)
    requires WorldInv(cfg, w) && Enabled(cfg, w, a)
    ensures Attempts(Apply(cfg, w, a).t, k) == Attempts(w.t, k) + if a.ClaimDelivery? && a.k == k then 1 else 0
  {
    if !Touches(a, k) {
      OtherStepLeavesRow(cfg, w, a, k);
    }
  }

  /** The attempts column of a delivery counts the claims of it in the whole run, restarts included. */
  lemma {:induction false} AttemptsCountClaims(cfg: Config, worlds: seq<World>, actions: seq<Action>, i: nat, k: DeliveryKey)
    requires IsRun(cfg, worlds, actions) && i < |worlds|
    ensures Attempts(worlds[i].t, k) == Claims(actions[..i], k)
  {
    if i > 0 {
      AttemptsCountClaims(cfg, worlds, actions, i - 1, k);
      RunKeeps(cfg, worlds, actions, i - 1);
      assert StepAt(cfg, worlds, actions, i - 1);
      StepCounts(cfg, worlds[i - 1], actions[i - 1], k);
      assert actions[..i][..i - 1] == actions[..i - 1];
    }
  }

  // ---------- Spacing ----------

  /** Seconds of backoff after the attempts from + 1 up to n. */
  function BackoffSeconds(from: nat, n: nat): int {
    60 * (CumulativeMinutes(n) - CumulativeMinutes(from))
  }

  /** Since the claim at second `first` that began attempt from + 1, all backoffs were kept. */
  ghost predicate Spaced(w: World, k: DeliveryKey, first: int, from: nat) {
    && k in w.t.deliveries
    && var d := w.t.deliveries[k];
       && d.attempts >= from + 1
       && !d.state.Pending?
       && (d.state.Delivering? ==> Unix(w.now) >= first + BackoffSeconds(from, d.attempts - 1))
       && (d.state.RetryWait? ==> d.nextAttempt >= first + BackoffSeconds(from, d.attempts))
  }

  lemma FailSpaces(w: World, a: Action, k: DeliveryKey, first: int, from: nat)
    requires a.Fail? && a.k == k && DeliveryEnabled(w, a) && Spaced(w, k, first, from)
    ensures Spaced(DeliveryApply(w, a), k, first, from)
  {
    UnixAddSeconds(w.now, 60 * BackoffMinutes(w.t.deliveries[k].attempts));
  }

  lemma OwnStepSpaces(w: World, a: Action, k: DeliveryKey, first: int, from: nat)
    requires IsDeliveryAction(a) && DeliveryEnabled(w, a) && Touches(a, k) && !a.Restart? && Spaced(w, k, first, from)
    ensures Spaced(DeliveryApply(w, a), k, first, from)
  {
    if a.Fail? {
      FailSpaces(w, a, k, first, from);
    }
  }

  lemma UntouchedSpaces(w: World, v: World, k: DeliveryKey, first: int, from: nat)
    requires SameRow(w.t, v.t, k) && w.now <= v.now && Spaced(w, k, first, from)
    ensures Spaced(v, k, first, from)
  {
    UnixMonotone(w.now, v.now);
  }

  lemma StepSpaces(cfg: Config, w: World, a: Action, k: DeliveryKey, first: int, from: nat)
    requires WorldInv(cfg, w) && Enabled(cfg, w, a) && !a.Restart? && Spaced(w, k, first, from)
    ensures Spaced(Apply(cfg, w, a), k, first, from)
  {
    if Touches(a, k) {
      OwnStepSpaces(w, a, k, first, from);
    } else {
      OtherStepLeavesRow(cfg, w, a, k);
      UntouchedSpaces(w, Apply(cfg, w, a), k, first, from);
    }
  }

  lemma {:induction false} RunSpaces(cfg: Config, worlds: seq<World>, actions: seq<Action>, i: nat, j: nat, k: DeliveryKey)
    requires IsRun(cfg, worlds, actions) && i < j < |worlds|
    requires actions[i] == ClaimDelivery(k)
    requires forall h :: i < h < j ==> !actions[h].Restart?
    ensures Spaced(worlds[j], k, Unix(worlds[i].now), Attempts(worlds[i].t, k))
    decreases j
  {
    assert StepAt(cfg, worlds, actions, j - 1);
    if i + 1 < j {
      RunSpaces(cfg, worlds, actions, i, j - 1, k);
      RunKeeps(cfg, worlds, actions, j - 1);
      StepSpaces(cfg, worlds[j - 1], actions[j - 1], k, Unix(worlds[i].now), Attempts(worlds[i].t, k));
    }
  }

  /** Two claims of one delivery without a restart between them lie at least the sum of the backoffs
      of the attempts between them apart, in whole seconds. */
  lemma ClaimsAreSpaced(cfg: Config, worlds: seq<World>, actions: seq<Action>, i: nat, j: nat, k: DeliveryKey)
    requires IsRun(cfg, worlds, actions) && i < j < |actions|
    requires actions[i] == ClaimDelivery(k) && actions[j] == ClaimDelivery(k)
    requires forall h :: i < h < j ==> !actions[h].Restart?
    ensures Unix(worlds[j].now) - Unix(worlds[i].now)
         >= BackoffSeconds(Claims(actions[..i], k), Claims(actions[..j], k))
  {
    RunSpaces(cfg, worlds, actions, i, j, k);
    AttemptsCountClaims(cfg, worlds, actions, i, k);
    AttemptsCountClaims(cfg, worlds, actions, j, k);
    assert StepAt(cfg, worlds, actions, j);
  }

  /** From the first claim: 2^failures - 1 minutes up to six failures, then an hour more each. */
  lemma FirstToNextClaim(cfg: Config, worlds: seq<World>, actions: seq<Action>, i: nat, j: nat, k: DeliveryKey)
    requires IsRun(cfg, worlds, actions) && i < j < |actions|
    requires actions[i] == ClaimDelivery(k) && actions[j] == ClaimDelivery(k)
    requires Claims(actions[..i], k) == 0
    requires forall h :: i < h < j ==> !actions[h].Restart?
    ensures
      var failures := Claims(actions[..j], k);
      Unix(worlds[j].now) - Unix(worlds[i].now)
        >= 60 * if failures <= 6 then Pow2(failures) - 1 else 63 + 60 * (failures - 6)
  {
    ClaimsAreSpaced(cfg, worlds, actions, i, j, k);
    CumulativeClosedForm(Claims(actions[..j], k));
    CumulativeClosedForm(0);
  }
}
