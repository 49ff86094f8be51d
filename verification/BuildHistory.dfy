/**
 Packages over runs: what bounds their size, and how far apart the attempts to build one lie.
 */
module BuildHistory {
  import opened Wrappers
  import opened Sequences
  import opened Clock
  import opened Schema
  import opened TablesInvariant
  import opened Draining
  import opened Reservation
  import opened Lifecycle
  import opened LifecycleInvariant

  // ---------- Sizes ----------

  /** The package was formed by its project's packager: one artifact, or for mergewarc no more than the
      target. */
  ghost predicate Formed(cfg: Config, p: PackageId) {
    && p.project in cfg && p.packager == PackagerOf(cfg[p.project])
    && (|p.members| == 1 || (cfg[p.project].PackMerge? && Offset(p, |p.members|) <= cfg[p.project].merge.target))
  }

  lemma {:induction false} OffsetIsSum(p: PackageId, sizes: seq<int>, n: nat)
    requires n <= |p.members| && n <= |sizes|
    requires forall i :: 0 <= i < n ==> p.members[i].size == sizes[i]
    ensures Offset(p, n) == Sum(sizes[..n])
  {
    if n > 0 {
      OffsetIsSum(p, sizes, n - 1);
      SumSnoc(sizes, n - 1);
    }
  }

  /** What a call of reservePackage does to the package rows. */
  ghost predicate Reserves(t: Tables, u: Tables, result: Result) {
    if result.Reserved? then
      && result.packageId !in t.packages
      && exists count: nat, at: int {:trigger NewPackage(count, at)} ::
           u.packages == t.packages[result.packageId := NewPackage(count, at)]
    else u.packages == t.packages
  }

  lemma CallReservesRow(t0: Tables, project: string, pack: Packaging, plan: Option<Plan>, now: int, fault: bool)
    requires Inv(t0)
    ensures
      var (u, result) := ReservePackage(t0, project, pack, Always(plan), now, fault);
      Reserves(t0, u, result)
  {
    var (u, result) := ReservePackage(t0, project, pack, Always(plan), now, fault);
    if result.Reserved? {
      ReservedPackage(t0, project, pack, Always(plan), now, fault);
      var t := EnsureProject(t0, project);
      ReserveTables(t, result.packageId, plan.value, Choose(t, project, pack, now).draining, Unix(now));
    } else {
      EnsureProjectKeeps(t0, project);
      UnreservedFrom(EnsureProject(t0, project), project, pack, Always(plan), now, fault);
    }
  }

  lemma ReservedIsFormed(cfg: Config, t0: Tables, project: string, plan: Option<Plan>, now: int, fault: bool)
    requires Inv(t0) && project in cfg
    requires ReservePackage(t0, project, cfg[project], Always(plan), now, fault).1.Reserved?
    ensures Formed(cfg, ReservePackage(t0, project, cfg[project], Always(plan), now, fault).1.packageId)
  {
    ReservedPackage(t0, project, cfg[project], Always(plan), now, fault);
    PickedIsFormed(cfg, EnsureProject(t0, project), project, now);
  }

  lemma PickedIsFormed(cfg: Config, t: Tables, project: string, now: int)
    requires Inv(t) && project in cfg && Backlogged(t, project) && Choose(t, project, cfg[project], now).Reserve?
    ensures Formed(cfg, Picked(t, project, cfg[project], now))
  {
    var sizes := BacklogSizes(t, project);
    var p := Picked(t, project, cfg[project], now);
    var count := Choose(t, project, cfg[project], now).count;
    assert |p.members| == count;
    if cfg[project].PackMerge? {
      BacklogPositive(t, project);
      GreedyIsLongest(sizes, cfg[project].merge.target);
      OffsetIsSum(p, sizes, count);
    }
  }

  ghost predicate AllFormed(cfg: Config, t: Tables) {
    forall p :: p in t.packages ==> Formed(cfg, p)
  }

  lemma ReceiverStepForms(w: World, a: Action)
    requires IsReceiverAction(a) && ReceiverEnabled(w, a)
    ensures ReceiverApply(w, a).t.packages == w.t.packages
  {
  }

  lemma DeliveryStepForms(w: World, a: Action)
    requires IsDeliveryAction(a) && DeliveryEnabled(w, a)
    ensures DeliveryApply(w, a).t.packages.Keys == w.t.packages.Keys
  {
  }

  lemma PurgeStepForms(w: World, a: Action)
    requires IsPurgeAction(a) && PurgeEnabled(w, a)
    ensures PurgeApply(w, a).t.packages.Keys == w.t.packages.Keys
  {
    if a.PackagePurged? || a.PurgeRetry? {
      MarksKeepKeys(w.t, w.packer.p);
    } else {
      assert PurgeApply(w, a).t.packages == w.t.packages;
    }
  }

  lemma MarksKeepKeys(t: Tables, p: PackageId)
    ensures forall now :: MarkPurged(t, p, now).packages.Keys == t.packages.Keys
    ensures forall message, retryAt :: MarkPurgeRetry(t, p, message, retryAt).packages.Keys == t.packages.Keys
  {
  }

  lemma ReserveStepForms(cfg: Config, w: World, project: string, plan: Option<Plan>, fault: bool)
    requires Inv(w.t) && project in cfg && AllFormed(cfg, w.t)
    ensures AllFormed(cfg, ReservePackage(w.t, project, cfg[project], Always(plan), w.now, fault).0)
  {
    CallReservesRow(w.t, project, cfg[project], plan, w.now, fault);
    if ReservePackage(w.t, project, cfg[project], Always(plan), w.now, fault).1.Reserved? {
      ReservedIsFormed(cfg, w.t, project, plan, w.now, fault);
    }
  }

  lemma BuildStepForms(cfg: Config, w: World, a: Action)
    requires IsBuildAction(a) && Inv(w.t) && BuildEnabled(cfg, w, a) && AllFormed(cfg, w.t)
    ensures AllFormed(cfg, BuildApply(cfg, w, a).t)
  {
    if a.CallReserve? {
      ReserveStepForms(cfg, w, a.project, a.plan, a.fault);
    } else {
      OtherBuildStepForms(cfg, w, a);
    }
  }

  lemma OtherBuildStepForms(cfg: Config, w: World, a: Action)
    requires IsBuildAction(a) && !a.CallReserve? && BuildEnabled(cfg, w, a)
    ensures BuildApply(cfg, w, a).t.packages.Keys <= w.t.packages.Keys
  {
  }

  lemma StepForms(cfg: Config, w: World, a: Action)
    requires WorldInv(cfg, w) && Enabled(cfg, w, a) && AllFormed(cfg, w.t)
    ensures AllFormed(cfg, Apply(cfg, w, a).t)
  {
    if IsReceiverAction(a) {
      ReceiverStepForms(w, a);
    } else if IsDeliveryAction(a) {
      DeliveryStepForms(w, a);
    } else if IsBuildAction(a) {
      BuildStepForms(cfg, w, a);
    } else {
      PurgeStepForms(w, a);
    }
  }

  /** Under one configuration every package ever formed is a single artifact, or the merge of no more
      than its project's target. */
  lemma {:induction false} PackagesStayWithinTarget(cfg: Config, worlds: seq<World>, actions: seq<Action>, i: nat)
    requires IsRun(cfg, worlds, actions) && i < |worlds|
    ensures AllFormed(cfg, worlds[i].t)
  {
    if i > 0 {
      PackagesStayWithinTarget(cfg, worlds, actions, i - 1);
      RunKeeps(cfg, worlds, actions, i - 1);
      assert StepAt(cfg, worlds, actions, i - 1);
      StepForms(cfg, worlds[i - 1], actions[i - 1]);
    }
  }

  // ---------- Build attempts ----------

  /** The backoffs after the attempts 0 to n - 1; a freshly reserved package fails as attempt 0. */
  function BuildMinutes(n: nat): (r: nat) {
    if n == 0 then 0 else BuildMinutes(n - 1) + BackoffMinutes(n - 1)
  }

  /** One minute for attempt 0, then the delays of deliveries. */
  lemma {:induction false} BuildMinutesClosedForm(n: nat)
    ensures n > 0 ==> BuildMinutes(n) == 1 + CumulativeMinutes(n - 1)
  {
    if n > 0 {
      BuildMinutesClosedForm(n - 1);
      if n > 1 {
        assert CumulativeMinutes(n - 1) == CumulativeMinutes(n - 2) + BackoffMinutes(n - 1);
      }
    }
  }

  function BuildSeconds(from: nat, n: nat): int {
    60 * (BuildMinutes(n) - BuildMinutes(from))
  }

  /** The packaging goroutine is at work on p. */
  predicate Busy(w: World, p: PackageId) {
    match w.packer
    case Materializing(q) => q == p
    case Merged(q, _) => q == p
    case PayloadPublished(q, _) => q == p
    case BothPublished(q) => q == p
    case Broken(q) => q == p
    case _ => false
  }

  /** Since second `first`, when attempt `from` began, all backoffs of building p were kept. */
  ghost predicate Spaced(w: World, p: PackageId, first: int, from: nat) {
    && p in w.t.packages
    && (IsBuilding(w.t, p) ==>
          var pkg := w.t.packages[p];
          && pkg.buildAttempts >= from
          && (if Busy(w, p) then Unix(w.now) >= first + BuildSeconds(from, pkg.buildAttempts)
              else pkg.nextBuildAt >= first + BuildSeconds(from, pkg.buildAttempts + 1)))
  }

  /** Nothing of p's building changes. */
  ghost predicate SameBuild(w: World, v: World, p: PackageId) {
    && w.now <= v.now
    && (p in w.t.packages ==>
          && p in v.t.packages
          && (IsBuilding(v.t, p) ==>
                && IsBuilding(w.t, p) && (Busy(v, p) <==> Busy(w, p))
                && v.t.packages[p].nextBuildAt == w.t.packages[p].nextBuildAt
                && v.t.packages[p].buildAttempts == w.t.packages[p].buildAttempts))
  }

  lemma SameBuildSpaces(w: World, v: World, p: PackageId, first: int, from: nat)
    requires SameBuild(w, v, p) && Spaced(w, p, first, from)
    ensures Spaced(v, p, first, from)
  {
    UnixMonotone(w.now, v.now);
  }

  predicate IsCrash(a: Action) {
    a.Restart? || a.DeliverCrash? || a.PackagePowerLoss?
  }

  lemma DeliverySameBuild(w: World, a: Action, p: PackageId)
    requires IsDeliveryAction(a) && DeliveryEnabled(w, a) && !IsCrash(a)
    ensures SameBuild(w, DeliveryApply(w, a), p)
  {
  }

  lemma PurgeSameBuild(w: World, a: Action, p: PackageId)
    requires IsPurgeAction(a) && PurgeEnabled(w, a)
    ensures SameBuild(w, PurgeApply(w, a), p)
  {
  }

  lemma ReserveSameBuild(cfg: Config, w: World, a: Action, p: PackageId)
    requires a.CallReserve? && Inv(w.t) && BuildEnabled(cfg, w, a) && p in w.t.packages
    ensures SameBuild(w, BuildApply(cfg, w, a), p)
  {
    CallReservesRow(w.t, a.project, cfg[a.project], a.plan, w.now, a.fault);
  }

  lemma WorkSameBuild(cfg: Config, w: World, a: Action, p: PackageId)
    requires IsBuildAction(a) && !a.CallReserve? && !a.ClaimBuild? && !a.BuildRetry?
    requires BuildEnabled(cfg, w, a)
    ensures SameBuild(w, BuildApply(cfg, w, a), p)
  {
  }

  lemma OwnRetrySpaces(w: World, v: World, p: PackageId, message: string, first: int, from: nat)
    requires w.packer.Broken? && w.packer.p == p && Spaced(w, p, first, from)
    requires v == w.(t := MarkBuildRetry(w.t, p, message, BuildRetryAt(w)), packer := AtRest)
    ensures Spaced(v, p, first, from)
  {
    if IsBuilding(w.t, p) {
      var attempts := w.t.packages[p].buildAttempts;
      UnixAddSeconds(w.now, 60 * BackoffMinutes(attempts));
      assert BuildMinutes(attempts + 1) == BuildMinutes(attempts) + BackoffMinutes(attempts);
    }
  }

  lemma BuildRetrySpaces(cfg: Config, w: World, a: Action, p: PackageId, first: int, from: nat)
    requires a.BuildRetry? && BuildEnabled(cfg, w, a) && Spaced(w, p, first, from)
    ensures Spaced(BuildApply(cfg, w, a), p, first, from)
  {
    var v := BuildApply(cfg, w, a);
    if w.packer.p == p {
      OwnRetrySpaces(w, v, p, a.message, first, from);
    } else {
      assert SameBuild(w, v, p);
      SameBuildSpaces(w, v, p, first, from);
    }
  }

  lemma OwnClaimSpaces(w: World, v: World, p: PackageId, first: int, from: nat)
    requires w.packer.AtRest? && BuildDue(w.t, p, Unix(w.now)) && Spaced(w, p, first, from)
    requires v == w.(t := StartBuild(w.t, p), packer := Materializing(p))
    ensures Spaced(v, p, first, from)
  {
    assert v.t.packages[p].buildAttempts == w.t.packages[p].buildAttempts + 1;
    assert Busy(v, p) && !Busy(w, p);
  }

  lemma OtherClaimSpaces(w: World, v: World, q: PackageId, p: PackageId)
    requires w.packer.AtRest? && BuildDue(w.t, q, Unix(w.now)) && p != q
    requires v == w.(t := StartBuild(w.t, q), packer := Materializing(q))
    ensures SameBuild(w, v, p)
  {
  }

  lemma ClaimSpaces(cfg: Config, w: World, a: Action, p: PackageId, first: int, from: nat)
    requires a.ClaimBuild? && BuildEnabled(cfg, w, a) && Spaced(w, p, first, from)
    ensures Spaced(BuildApply(cfg, w, a), p, first, from)
  {
    var v := BuildApply(cfg, w, a);
    if a.p == p {
      OwnClaimSpaces(w, v, p, first, from);
    } else {
      OtherClaimSpaces(w, v, a.p, p);
      SameBuildSpaces(w, v, p, first, from);
    }
  }

  lemma BuildStepSpaces(cfg: Config, w: World, a: Action, p: PackageId, first: int, from: nat)
    requires IsBuildAction(a) && Inv(w.t) && BuildEnabled(cfg, w, a) && Spaced(w, p, first, from)
    ensures Spaced(BuildApply(cfg, w, a), p, first, from)
  {
    if a.BuildRetry? {
      BuildRetrySpaces(cfg, w, a, p, first, from);
    } else if a.ClaimBuild? {
      ClaimSpaces(cfg, w, a, p, first, from);
    } else {
      if a.CallReserve? {
        ReserveSameBuild(cfg, w, a, p);
      } else {
        WorkSameBuild(cfg, w, a, p);
      }
      SameBuildSpaces(w, BuildApply(cfg, w, a), p, first, from);
    }
  }

  lemma ReceiverSameBuild(w: World, a: Action, p: PackageId)
    requires IsReceiverAction(a) && ReceiverEnabled(w, a)
    ensures SameBuild(w, ReceiverApply(w, a), p)
  {
    ReceiverStepForms(w, a);
  }

  lemma OtherSameBuild(cfg: Config, w: World, a: Action, p: PackageId)
    requires Enabled(cfg, w, a) && !IsCrash(a) && !IsBuildAction(a)
    ensures SameBuild(w, Apply(cfg, w, a), p)
  {
    if IsReceiverAction(a) {
      ReceiverSameBuild(w, a, p);
    } else if IsDeliveryAction(a) {
      DeliverySameBuild(w, a, p);
    } else {
      PurgeSameBuild(w, a, p);
    }
  }

  lemma StepSpaces(cfg: Config, w: World, a: Action, p: PackageId, first: int, from: nat)
    requires Inv(w.t) && Enabled(cfg, w, a) && !IsCrash(a) && Spaced(w, p, first, from)
    ensures Spaced(Apply(cfg, w, a), p, first, from)
  {
    if IsBuildAction(a) {
      BuildStepSpaces(cfg, w, a, p, first, from);
    } else {
      OtherSameBuild(cfg, w, a, p);
      SameBuildSpaces(w, Apply(cfg, w, a), p, first, from);
    }
  }

  /** The step begins an attempt to build p: a claim, or the reservation itself. */
  ghost predicate Begins(cfg: Config, w: World, a: Action, p: PackageId) {
    || a == ClaimBuild(p)
    || (a.CallReserve? && Enabled(cfg, w, a) && p !in w.t.packages && p in Apply(cfg, w, a).t.packages)
  }

  function BuildAttempts(t: Tables, p: PackageId): nat {
    if p in t.packages then t.packages[p].buildAttempts else 0
  }

  lemma BeginsSpaced(cfg: Config, w: World, a: Action, p: PackageId)
    requires Inv(w.t) && Enabled(cfg, w, a) && Begins(cfg, w, a, p)
    ensures Spaced(Apply(cfg, w, a), p, Unix(w.now), BuildAttempts(Apply(cfg, w, a).t, p))
  {
    if a.CallReserve? {
      CallReservesRow(w.t, a.project, cfg[a.project], a.plan, w.now, a.fault);
    }
  }

  lemma {:induction false} RunSpaces(cfg: Config, worlds: seq<World>, actions: seq<Action>, i: nat, j: nat, p: PackageId)
    requires IsRun(cfg, worlds, actions) && i < j < |worlds|
    requires Begins(cfg, worlds[i], actions[i], p)
    requires forall h :: i < h < j ==> !IsCrash(actions[h])
    ensures Spaced(worlds[j], p, Unix(worlds[i].now), BuildAttempts(worlds[i + 1].t, p))
    decreases j
  {
    RunKeeps(cfg, worlds, actions, j - 1);
    assert StepAt(cfg, worlds, actions, j - 1);
    if i + 1 < j {
      RunSpaces(cfg, worlds, actions, i, j - 1, p);
      StepSpaces(cfg, worlds[j - 1], actions[j - 1], p, Unix(worlds[i].now), BuildAttempts(worlds[i + 1].t, p));
    } else {
      BeginsSpaced(cfg, worlds[i], actions[i], p);
    }
  }

  /** Without a crash of the deliver process between them, the beginning of one attempt to build p and a
      later claim of it lie at least the backoffs of all attempts between them apart, in whole seconds. */
  lemma BuildAttemptsAreSpaced(cfg: Config, worlds: seq<World>, actions: seq<Action>, i: nat, j: nat, p: PackageId)
    requires IsRun(cfg, worlds, actions) && i < j < |actions|
    requires Begins(cfg, worlds[i], actions[i], p) && actions[j] == ClaimBuild(p)
    requires forall h :: i < h < j ==> !IsCrash(actions[h])
    ensures Unix(worlds[j].now) - Unix(worlds[i].now)
         >= BuildSeconds(BuildAttempts(worlds[i + 1].t, p), BuildAttempts(worlds[j].t, p) + 1)
  {
    RunSpaces(cfg, worlds, actions, i, j, p);
    assert StepAt(cfg, worlds, actions, j);
  }
}
