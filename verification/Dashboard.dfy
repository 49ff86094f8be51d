/**
 The dashboard's backlog figures of one project, in 64-bit arithmetic, and how far they agree with
 what the packager does.
 */
module Dashboard {
  import opened Wrappers
  import opened Clock
  import opened Ordering
  import opened Schema
  import opened TablesInvariant
  import opened Draining
  import opened Reservation
  import opened Store

  const MAX_INT64 := 0x7FFF_FFFF_FFFF_FFFF
  const TWO64 := 0x1_0000_0000_0000_0000

  /** What a signed 64-bit product keeps of x. */
  function Wrap64(x: int): int {
    var low := x % TWO64;
    if low > MAX_INT64 then low - TWO64 else low
  }

  /** Go's division, truncated toward zero. */
  function TruncDiv(a: int, b: int): int
    requires b > 0
  {
    if a >= 0 then a / b else -((-a) / b)
  }

  function Max(a: int, b: int): int {
    if a > b then a else b
  }

  function Min(a: int, b: int): int {
    if a < b then a else b
  }

  datatype View = View(
    pendingArtifacts: nat,
    pendingBytes: int,
    oldestAcceptedAt: Option<int>,
    bytesUntilTrigger: int,
    triggerPercent: int,
    secondsUntilMaxWait: int)

  function BytesUntilTrigger(pending: int, trigger: int): int {
    Max(trigger - pending, 0)
  }

  function TriggerPercent(pending: int, trigger: int): int
    requires trigger >= 1
  {
    Min(TruncDiv(Wrap64(pending * 100), trigger), 100)
  }

  function SecondsUntilMaxWait(oldest: int, maxWait: int, now: int): int {
    Max(TruncDiv(oldest * SECOND + maxWait - now + SECOND - 1, SECOND), 0)
  }

  // ---------- The figures by themselves ----------

  /** The wait shown is the remaining time rounded up to whole seconds; zero means the age trigger of
      reservePackage holds. */
  lemma SecondsMatchAge(oldest: int, maxWait: int, now: int)
    ensures
      var remaining := oldest * SECOND + maxWait - now;
      var seconds := SecondsUntilMaxWait(oldest, maxWait, now);
      && (seconds == 0 <==> Aged(now, oldest, maxWait))
      && (remaining > 0 ==> (seconds - 1) * SECOND < remaining <= seconds * SECOND)
  {
    var x := oldest * SECOND + maxWait - now + SECOND - 1;
    assert x == SECOND * (x / SECOND) + x % SECOND;
  }

  lemma DivAtLeast(a: int, b: int, n: int)
    requires b > 0 && n > 0
    ensures TruncDiv(a, b) >= n <==> a >= n * b
  {
    if a >= 0 {
      assert a == b * (a / b) + a % b;
      if a / b >= n {
        assert b * (a / b) >= b * n;
      } else {
        assert b * (a / b) <= b * (n - 1);
      }
    } else {
      assert (-a) / b >= 0;
      assert n * b > 0;
    }
  }

  /** "100 percent" and "0 bytes to go" agree exactly when the trigger is not reached, or when the low 64
      bits of the product by 100 are a positive number of at least a hundred triggers. */
  lemma PercentAgreesIff(pending: int, trigger: int)
    requires 0 <= pending <= MAX_INT64 && 1 <= trigger <= MAX_INT64
    ensures
      (TriggerPercent(pending, trigger) == 100 <==> BytesUntilTrigger(pending, trigger) == 0)
        <==> pending < trigger || 100 * trigger <= (pending * 100) % TWO64 <= MAX_INT64
  {
    DivAtLeast(Wrap64(pending * 100), trigger, 100);
    if pending < trigger {
      if pending * 100 <= MAX_INT64 {
        assert Wrap64(pending * 100) == pending * 100;
      } else {
        assert Wrap64(pending * 100) <= MAX_INT64 < 100 * trigger;
      }
    }
  }

  lemma WrapSmall(x: int)
    requires 0 <= x <= MAX_INT64
    ensures Wrap64(x) == x
  {
  }

  /** In particular they agree for every backlog below 2^63 / 100 bytes, */
  lemma PercentAgrees(pending: int, trigger: int)
    requires 0 <= pending && pending * 100 <= MAX_INT64 && 1 <= trigger <= MAX_INT64
    ensures TriggerPercent(pending, trigger) == 100 <==> BytesUntilTrigger(pending, trigger) == 0
    ensures 0 <= TriggerPercent(pending, trigger) <= 100
  {
    WrapSmall(pending * 100);
    PercentAgreesIff(pending, trigger);
    DivAtLeast(pending * 100, trigger, 100);
  }

  /** below the trigger the bytes to go are what is missing, and the percentage is the backlog's share of
      the trigger, rounded down, */
  lemma FiguresBelowTrigger(pending: int, trigger: int)
    requires 0 <= pending < trigger && pending * 100 <= MAX_INT64
    ensures pending + BytesUntilTrigger(pending, trigger) == trigger
    ensures
      var percent := TriggerPercent(pending, trigger);
      0 <= percent < 100 && percent * trigger <= 100 * pending < (percent + 1) * trigger
  {
    WrapSmall(pending * 100);
    var percent := (pending * 100) / trigger;
    assert pending * 100 == trigger * percent + (pending * 100) % trigger;
    DivAtLeast(pending * 100, trigger, 100);
  }

  /** and above it they need not: 92 petabytes over a trigger of one byte show a negative percentage. */
  lemma PercentOverflows()
    ensures BytesUntilTrigger(92233720368547759, 1) == 0
    ensures TriggerPercent(92233720368547759, 1) < 0
  {
    assert Wrap64(92233720368547759 * 100) == 9223372036854775900 - TWO64;
  }

  // ---------- The query ----------

  ghost predicate Shows(t: Tables, project: string, cfg: Packaging, now: int, view: View) {
    && Known(t, Candidates(t, project))
    && view.pendingArtifacts == |Candidates(t, project)|
    && view.pendingBytes == Backlog(t, project)
    && view.oldestAcceptedAt ==
         (if Candidates(t, project) == [] then None else Some(t.artifacts[Candidates(t, project)[0]].acceptedAt))
    && (cfg.PackIdentity? ==>
          view.bytesUntilTrigger == 0 && view.triggerPercent == 100 && view.secondsUntilMaxWait == 0)
    && (cfg.PackMerge? && cfg.merge.trigger >= 1 ==>
          && view.bytesUntilTrigger == BytesUntilTrigger(view.pendingBytes, cfg.merge.trigger)
          && view.triggerPercent == TriggerPercent(view.pendingBytes, cfg.merge.trigger)
          && view.secondsUntilMaxWait ==
               (if view.oldestAcceptedAt.None? then 0
                else SecondsUntilMaxWait(view.oldestAcceptedAt.value, cfg.merge.maxWait, now)))
  }

  /** dashboardProject, up to its packaging figures. */
  method DashboardProject(store: DeliveryStore, project: string, cfg: Packaging, now: int) returns (view: View)
    ensures Shows(store.Contents(), project, cfg, now, view)
  {
    var rows, sizes, total := store.ListCandidates(project);
    TotalIsBacklog(store.Contents(), project);
    view := View(|rows|, total, None, 0, 0, 0);
    if rows != [] {
      view := view.(oldestAcceptedAt := Some(store.artifacts[rows[0]].acceptedAt));
    }
    if cfg.PackIdentity? {
      view := view.(triggerPercent := 100);
      return;
    }
    view := view.(bytesUntilTrigger := Max(cfg.merge.trigger - total, 0));
    if cfg.merge.trigger > 0 {
      view := view.(triggerPercent := Min(TruncDiv(Wrap64(total * 100), cfg.merge.trigger), 100));
    }
    if view.oldestAcceptedAt.Some? {
      var remaining := view.oldestAcceptedAt.value * SECOND + cfg.merge.maxWait - now;
      view := view.(secondsUntilMaxWait := Max(TruncDiv(remaining + SECOND - 1, SECOND), 0));
    }
  }

  /** The first candidate is the oldest one. */
  lemma FirstIsOldest(t: Tables, project: string, o: string)
    requires IsCandidate(t, project, o)
    ensures Candidates(t, project) != [] && Known(t, Candidates(t, project))
    ensures t.artifacts[Candidates(t, project)[0]].acceptedAt <= t.artifacts[o].acceptedAt
  {
    CandidatesHold(t, project);
    var rows := Candidates(t, project);
    assert o in rows;
    var i :| 0 <= i < |rows| && rows[i] == o;
    assert i > 0 ==> RankLe(CandidateRank(t)(rows[0]), CandidateRank(t)(rows[i]));
  }

  // ---------- Against the packager ----------

  /** With a backlog, a zero on the dashboard means that the next reservation forms a package; outside
      a round, only a zero does. */
  lemma ZeroMeansReserve(t: Tables, project: string, merge: Merge, makePlan: PackageId -> Option<Plan>, now: int, view: View)
    requires Inv(t) && ValidMerge(merge) && DrainingOk(t, project, PackMerge(merge))
    requires forall p :: makePlan(p).Some?
    requires Shows(t, project, PackMerge(merge), now, view) && view.pendingArtifacts > 0
    ensures
      var reserves := ReservePackage(t, project, PackMerge(merge), makePlan, now, false).1.Reserved?;
      var zero := view.bytesUntilTrigger == 0 || view.secondsUntilMaxWait == 0;
      && (zero ==> reserves)
      && (reserves && !(project in t.draining && t.draining[project]) ==> zero)
  {
    WhenMergeReserves(t, project, merge, makePlan, now);
    SecondsMatchAge(view.oldestAcceptedAt.value, merge.maxWait, now);
  }

  /** Identity projects always show zeroes, and always reserve. */
  lemma IdentityReserves(t: Tables, project: string, makePlan: PackageId -> Option<Plan>, now: int, view: View)
    requires Inv(t) && (forall p :: makePlan(p).Some?)
    requires Shows(t, project, PackIdentity, now, view) && view.pendingArtifacts > 0
    ensures ReservePackage(t, project, PackIdentity, makePlan, now, false).1.Reserved?
  {
    SameCandidates(t, project);
    CallReserves(t, project, PackIdentity, makePlan, now, false);
  }
}
