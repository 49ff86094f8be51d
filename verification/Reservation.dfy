/**
 One reservePackage call as a function of the tables, the configuration and the clock, and what it
 keeps: the table invariant, and the link between the persisted draining flag and the backlog.
 */
module Reservation {
  import opened Wrappers
  import opened Sequences
  import opened Clock
  import opened PackageIds
  import opened Schema
  import opened TablesInvariant
  import opened Ordering
  import opened Draining

  datatype Packaging = PackIdentity | PackMerge(merge: Merge)

  ghost predicate ValidPackaging(cfg: Packaging) {
    cfg.PackMerge? ==> ValidMerge(cfg.merge)
  }

  function PackagerOf(cfg: Packaging): Packager {
    if cfg.PackIdentity? then IdentityPackager else MergePackager
  }

  // ---------- The ordered backlog ----------

  /** ORDER BY accepted_at, object_id. */
  function CandidateRank(t: Tables): string -> Rank {
    o => if o in t.artifacts then Rank(t.artifacts[o].acceptedAt, 0, 0, o) else Rank(0, 0, 0, o)
  }

  ghost function Candidates(t: Tables, project: string): seq<string> {
    Listing(CandidateSet(t, project), CandidateRank(t))
  }

  lemma CandidatesHold(t: Tables, project: string)
    ensures Known(t, Candidates(t, project))
    ensures forall o :: o in Candidates(t, project) <==> IsCandidate(t, project, o)
    ensures Ordered(Candidates(t, project), CandidateRank(t))
    ensures Separates(CandidateSet(t, project), CandidateRank(t))
  {
    ListingHolds(CandidateSet(t, project), CandidateRank(t));
    var rows := Candidates(t, project);
    forall i | 0 <= i < |rows| ensures rows[i] in t.artifacts {
      assert rows[i] in rows;
    }
  }

  // ---------- The call ----------

  datatype Result = Nothing | Reserved(packageId: PackageId) | Failed

  /** Member row i meets an existing row with its object or with its package and ordinal. */
  predicate RowConflicts(t: Tables, p: PackageId, i: nat)
    requires i < |p.members|
  {
    || p.members[i].objectId in t.members
    || (exists o :: o in t.members && t.members[o].packageId == p && t.members[o].ordinal == i)
  }

  /** A unique or primary key would stop the transaction. */
  ghost predicate Conflicts(t: Tables, p: PackageId) {
    || DeliveryKey(p, SINK) in t.deliveries
    || (exists i :: 0 <= i < |p.members| && RowConflicts(t, p, i))
  }

  function Aged(now: int, acceptedAt: int, maxWait: int): bool {
    now - acceptedAt * SECOND >= maxWait
  }

  /** The call found candidates. */
  ghost predicate Backlogged(t: Tables, project: string) {
    project in t.draining && Candidates(t, project) != [] && Known(t, Candidates(t, project))
  }

  ghost function BacklogSizes(t: Tables, project: string): seq<int>
    requires Known(t, Candidates(t, project))
  {
    Sizes(t, Candidates(t, project))
  }

  ghost function Choose(t: Tables, project: string, cfg: Packaging, now: int): (r: Decision)
    requires Backlogged(t, project)
    ensures r.Reserve? ==> 1 <= r.count <= |Candidates(t, project)|
  {
    match cfg
    case PackIdentity => Reserve(1, false)
    case PackMerge(merge) =>
      var oldest := t.artifacts[Candidates(t, project)[0]].acceptedAt;
      Decide(merge, t.draining[project], BacklogSizes(t, project), Aged(now, oldest, merge.maxWait))
  }

  /** The package that the chosen prefix of the backlog derives. */
  ghost function Picked(t: Tables, project: string, cfg: Packaging, now: int): PackageId
    requires Backlogged(t, project) && Choose(t, project, cfg, now).Reserve?
  {
    Derive(t, project, PackagerOf(cfg), Candidates(t, project)[..Choose(t, project, cfg, now).count])
  }

  /** The transaction. `plan` is the resolved delivery plan, or None when a template does not resolve;
      `fault` is a statement or commit that fails. */
  ghost function Commit(t: Tables, p: PackageId, plan: Option<Plan>, keep: bool, now: int, fault: bool): (Tables, Result)
    requires AllKnown(t, p)
  {
    if plan.None? then (t, Failed)
    else if p in t.packages then (t, if fault then Failed else Nothing)
    else if fault || Conflicts(t, p) then (t, Failed)
    else (InsertReservation(t, p, plan.value, keep, Unix(now)), Reserved(p))
  }

  /** The call from the moment the project has its row. */
  ghost function ReserveFrom(t: Tables, project: string, cfg: Packaging, makePlan: PackageId -> Option<Plan>,
                             now: int, fault: bool): (Tables, Result)
    requires project in t.draining
  {
    CandidatesHold(t, project);
    if Candidates(t, project) == [] then
      (if t.draining[project] then SetDraining(t, project, false) else t, Nothing)
    else
      match Choose(t, project, cfg, now)
      case Wait => (t, Nothing)
      case Reserve(_, keep) =>
        var p := Picked(t, project, cfg, now);
        Commit(t, p, makePlan(p), keep, now, fault)
  }

  ghost function ReservePackage(t0: Tables, project: string, cfg: Packaging, makePlan: PackageId -> Option<Plan>,
                                now: int, fault: bool): (Tables, Result)
  {
    ReserveFrom(EnsureProject(t0, project), project, cfg, makePlan, now, fault)
  }

  // ---------- The table invariant ----------

  /** The selection derives a fresh package ID, and no key of the schema stands in the way. */
  lemma PickedFresh(t: Tables, project: string, cfg: Packaging, now: int)
    requires Inv(t) && Backlogged(t, project) && Choose(t, project, cfg, now).Reserve?
    ensures
      var p := Picked(t, project, cfg, now);
      && Selectable(t, p) && p.project == project && p.packager == PackagerOf(cfg)
      && p !in t.packages && !Conflicts(t, p)
  {
    CandidatesHold(t, project);
    var rows := Candidates(t, project);
    var selected := rows[..Choose(t, project, cfg, now).count];
    forall i | 0 <= i < |selected| ensures IsCandidate(t, project, selected[i]) {
      assert rows[i] in rows;
    }
    DeriveSelectable(t, project, PackagerOf(cfg), selected);
    NoConflict(t, Picked(t, project, cfg, now));
  }

  lemma NoConflict(t: Tables, p: PackageId)
    requires Inv(t) && Selectable(t, p)
    ensures p !in t.packages && !Conflicts(t, p)
  {
    ReservationNeverCollides(t, p);
    forall k | k in t.deliveries ensures k.packageId != p {
      assert DeliveryOk(t, k);
    }
    forall o | o in t.members
      ensures t.members[o].packageId != p
      ensures forall i :: 0 <= i < |p.members| ==> p.members[i].objectId != o
    {
      assert MemberOk(t, o);
    }
  }

  lemma EnsureProjectKeeps(t: Tables, project: string)
    requires Inv(t)
    ensures Inv(EnsureProject(t, project))
  {
    ProjectsKeep(t, EnsureProject(t, project));
  }

  /** What a call does when it decides to reserve. */
  lemma CallReserves(t0: Tables, project: string, cfg: Packaging, makePlan: PackageId -> Option<Plan>,
                     now: int, fault: bool)
    requires Inv(t0) && Backlogged(EnsureProject(t0, project), project)
    requires Choose(EnsureProject(t0, project), project, cfg, now).Reserve?
    ensures
      var t := EnsureProject(t0, project);
      var p := Picked(t, project, cfg, now);
      && Inv(t) && Selectable(t, p)
      && ReservePackage(t0, project, cfg, makePlan, now, fault) ==
           if makePlan(p).None? || fault then (t, Failed)
           else (InsertReservation(t, p, makePlan(p).value, Choose(t, project, cfg, now).draining, Unix(now)), Reserved(p))
  {
    EnsureProjectKeeps(t0, project);
    PickedFresh(EnsureProject(t0, project), project, cfg, now);
  }

  /** What a successful call reserved: a fresh package over a prefix of the ordered backlog, with its
      delivery under the plan that was resolved for it, both due at once. */
  lemma ReservedPackage(t0: Tables, project: string, cfg: Packaging, makePlan: PackageId -> Option<Plan>,
                        now: int, fault: bool)
    requires Inv(t0)
    requires ReservePackage(t0, project, cfg, makePlan, now, fault).1.Reserved?
    ensures
      var (u, result) := ReservePackage(t0, project, cfg, makePlan, now, fault);
      var t := EnsureProject(t0, project);
      && Backlogged(t, project) && Choose(t, project, cfg, now).Reserve?
      && result.packageId == Picked(t, project, cfg, now)
      && Inv(t) && Selectable(t, result.packageId)
      && makePlan(result.packageId).Some?
      && u == InsertReservation(t, result.packageId, makePlan(result.packageId).value,
                                Choose(t, project, cfg, now).draining, Unix(now))
      && AddsFreshRows(t0, u, result.packageId, makePlan(result.packageId).value, Unix(now))
  {
    CandidatesHold(EnsureProject(t0, project), project);
    CallReserves(t0, project, cfg, makePlan, now, fault);
    var t := EnsureProject(t0, project);
    var p := Picked(t, project, cfg, now);
    ReserveAddsFreshRows(t, p, makePlan(p).value, Choose(t, project, cfg, now).draining, Unix(now));
  }

  /** A call that reserves nothing leaves the tables, or clears its project's flag on an empty backlog;
      it fails only on a plan or a statement that fails. */
  lemma UnreservedFrom(t: Tables, project: string, cfg: Packaging, makePlan: PackageId -> Option<Plan>,
                       now: int, fault: bool)
    requires Inv(t) && project in t.draining
    requires !ReserveFrom(t, project, cfg, makePlan, now, fault).1.Reserved?
    ensures
      var (u, result) := ReserveFrom(t, project, cfg, makePlan, now, fault);
      && (u == t || u == t.(draining := t.draining[project := false]))
      && (result.Failed? ==> fault || exists p :: makePlan(p).None?)
  {
    CandidatesHold(t, project);
    if Candidates(t, project) != [] && Choose(t, project, cfg, now).Reserve? {
      PickedFresh(t, project, cfg, now);
    }
  }

  /** A call that reserves nothing sets no flag, and touches none but its own project's. */
  lemma UnreservedFlags(t0: Tables, project: string, cfg: Packaging, makePlan: PackageId -> Option<Plan>,
                        now: int, fault: bool)
    requires Inv(t0) && !ReservePackage(t0, project, cfg, makePlan, now, fault).1.Reserved?
    ensures
      var (u, result) := ReservePackage(t0, project, cfg, makePlan, now, fault);
      && u == t0.(draining := u.draining)
      && (result.Failed? ==> fault || exists p :: makePlan(p).None?)
      && project in u.draining && (u.draining[project] ==> project in t0.draining && t0.draining[project])
      && (forall other :: other != project ==>
            (other in u.draining <==> other in t0.draining)
            && (other in u.draining ==> u.draining[other] == t0.draining[other]))
  {
    EnsureProjectKeeps(t0, project);
    UnreservedFrom(EnsureProject(t0, project), project, cfg, makePlan, now, fault);
  }

  /** A call keeps the invariant whatever its outcome, and fails only on a plan or a statement that
      fails: no constraint of the schema ever rejects the transaction. */
  lemma ReservePackageKeeps(t0: Tables, project: string, cfg: Packaging, makePlan: PackageId -> Option<Plan>,
                            now: int, fault: bool)
    requires Inv(t0)
    ensures
      var (u, result) := ReservePackage(t0, project, cfg, makePlan, now, fault);
      && Inv(u)
      && (result.Failed? ==> fault || exists p :: makePlan(p).None?)
      && (!result.Reserved? ==> u == t0.(draining := u.draining))
  {
    var (u, result) := ReservePackage(t0, project, cfg, makePlan, now, fault);
    if result.Reserved? {
      ReservedPackage(t0, project, cfg, makePlan, now, fault);
      ReserveKeeps(EnsureProject(t0, project), result.packageId, makePlan(result.packageId).value,
                   Choose(EnsureProject(t0, project), project, cfg, now).draining, Unix(now));
    } else {
      UnreservedFlags(t0, project, cfg, makePlan, now, fault);
      ProjectsKeep(t0, u);
    }
  }

  // ---------- The backlog in bytes ----------

  ghost function TotalSize(t: Tables, s: set<string>): int
    requires s <= t.artifacts.Keys
    decreases |s|
  {
    if s == {} then 0
    else
      var o :| o in s;
      t.artifacts[o].size + TotalSize(t, s - {o})
  }

  lemma {:induction false} TotalSizeRemove(t: Tables, s: set<string>, o: string)
    requires s <= t.artifacts.Keys && o in s
    ensures TotalSize(t, s) == t.artifacts[o].size + TotalSize(t, s - {o})
    decreases |s|
  {
    var x :| x in s && TotalSize(t, s) == t.artifacts[x].size + TotalSize(t, s - {x});
    if x != o {
      TotalSizeRemove(t, s - {x}, o);
      TotalSizeRemove(t, s - {o}, x);
      assert s - {x} - {o} == s - {o} - {x};
    }
  }

  /** Sums depend on the sizes alone, and grow with the set. */
  lemma {:induction false} TotalSizeMonotone(t: Tables, u: Tables, a: set<string>, b: set<string>)
    requires a <= t.artifacts.Keys && b <= u.artifacts.Keys && a <= b
    requires forall o :: o in a ==> t.artifacts[o].size == u.artifacts[o].size
    requires forall o :: o in b ==> u.artifacts[o].size >= 1
    ensures TotalSize(t, a) <= TotalSize(u, b)
    ensures a == b ==> TotalSize(t, a) == TotalSize(u, b)
    decreases |b|
  {
    if b != {} {
      var o :| o in b;
      TotalSizeRemove(u, b, o);
      if o in a {
        TotalSizeRemove(t, a, o);
        TotalSizeMonotone(t, u, a - {o}, b - {o});
      } else {
        TotalSizeMonotone(t, u, a, b - {o});
      }
    }
  }

  ghost function Backlog(t: Tables, project: string): int {
    TotalSize(t, CandidateSet(t, project))
  }

  lemma {:induction false} SumOfRows(t: Tables, rows: seq<string>, s: set<string>)
    requires Known(t, rows) && s <= t.artifacts.Keys
    requires forall o :: o in rows <==> o in s
    requires forall i, j :: 0 <= i < j < |rows| ==> rows[i] != rows[j]
    ensures Sum(Sizes(t, rows)) == TotalSize(t, s)
    decreases |rows|
  {
    if rows != [] {
      var last := rows[|rows| - 1];
      var front := rows[..|rows| - 1];
      assert last in rows;
      forall o ensures o in front <==> o in s - {last} {
        if o in rows {
          var i :| 0 <= i < |rows| && rows[i] == o;
          assert i < |front| ==> front[i] in front;
        }
      }
      SumOfRows(t, front, s - {last});
      TotalSizeRemove(t, s, last);
      assert Sizes(t, rows)[..|rows| - 1] == Sizes(t, front);
    } else {
      assert s == {};
    }
  }

  /** The total that reservePackage accumulates is the backlog. */
  lemma TotalIsBacklog(t: Tables, project: string)
    ensures Known(t, Candidates(t, project))
    ensures Sum(Sizes(t, Candidates(t, project))) == Backlog(t, project)
  {
    CandidatesHold(t, project);
    SumOfRows(t, Candidates(t, project), CandidateSet(t, project));
  }

  lemma BacklogPositive(t: Tables, project: string)
    requires Inv(t) && Known(t, Candidates(t, project))
    ensures AllPositive(BacklogSizes(t, project))
    ensures Sum(BacklogSizes(t, project)) == Backlog(t, project)
  {
    TotalIsBacklog(t, project);
    forall i | 0 <= i < |BacklogSizes(t, project)| ensures BacklogSizes(t, project)[i] >= 1 {
      assert ArtifactOk(t, Candidates(t, project)[i]);
    }
  }

  // ---------- The draining flag ----------

  /** The persisted flag is set only while a target's worth of backlog is left. */
  ghost predicate DrainingOk(t: Tables, project: string, cfg: Packaging) {
    project in t.draining && t.draining[project] ==>
      cfg.PackMerge? && Backlog(t, project) >= cfg.merge.target
  }

  /** No statement but the reservation touches the flag, so it is enough that the backlog does not
      shrink. */
  lemma DrainingKept(t: Tables, u: Tables, project: string, cfg: Packaging)
    requires Inv(t) && Inv(u) && DrainingOk(t, project, cfg)
    requires project in u.draining && u.draining[project] ==> project in t.draining && t.draining[project]
    requires forall o :: IsCandidate(t, project, o) ==> IsCandidate(u, project, o) && u.artifacts[o].size == t.artifacts[o].size
    ensures DrainingOk(u, project, cfg)
  {
    forall o | o in CandidateSet(u, project) ensures u.artifacts[o].size >= 1 {
      assert ArtifactOk(u, o);
    }
    TotalSizeMonotone(t, u, CandidateSet(t, project), CandidateSet(u, project));
  }

  lemma ReserveFlag(t: Tables, p: PackageId, plan: Plan, keep: bool, now: int)
    requires Selectable(t, p) && p.project in t.draining
    ensures InsertReservation(t, p, plan, keep, now).draining == t.draining[p.project := keep]
  {
    InsertMembersDraining(InsertPackage(t, p, NewPackage(|p.members|, now), plan), p, |p.members|);
  }

  lemma {:induction false} InsertMembersDraining(t: Tables, p: PackageId, n: nat)
    requires n <= |p.members| && AllKnown(t, p)
    ensures InsertMembers(t, p, n).draining == t.draining
  {
    if n > 0 {
      InsertMembersDraining(t, p, n - 1);
    }
  }

  lemma PrefixDisjointFromRest(rows: seq<string>, count: nat, o: string)
    requires count <= |rows|
    requires forall i, j :: 0 <= i < j < |rows| ==> rows[i] != rows[j]
    ensures o in rows[count..] <==> (o in rows && o !in rows[..count])
  {
    assert rows == rows[..count] + rows[count..];
    forall x | x in rows[..count] ensures x !in rows[count..] {
      var i :| 0 <= i < count && rows[i] == x;
      assert forall j :: count <= j < |rows| ==> rows[j] != x;
    }
  }

  lemma PickedAreThePrefix(t: Tables, project: string, cfg: Packaging, now: int, o: string)
    requires Backlogged(t, project) && Choose(t, project, cfg, now).Reserve?
    ensures
      var p := Picked(t, project, cfg, now);
      AmongFirst(p, |p.members|, o) <==> (o in Candidates(t, project)[..Choose(t, project, cfg, now).count])
  {
    var p := Picked(t, project, cfg, now);
    var prefix := Candidates(t, project)[..Choose(t, project, cfg, now).count];
    assert |p.members| == |prefix|;
    forall i | 0 <= i < |prefix| ensures p.members[i].objectId == prefix[i] {
    }
    if o in prefix {
      var i :| 0 <= i < |prefix| && prefix[i] == o;
      assert p.members[i].objectId == o;
    }
  }

  /** The selected objects are the prefix of the backlog, the others its rest. */
  lemma PrefixOrRest(t: Tables, project: string, cfg: Packaging, now: int, o: string)
    requires Backlogged(t, project) && Choose(t, project, cfg, now).Reserve?
    ensures
      var p := Picked(t, project, cfg, now);
      var rest := Candidates(t, project)[Choose(t, project, cfg, now).count..];
      o in rest <==> (IsCandidate(t, project, o) && !AmongFirst(p, |p.members|, o))
  {
    CandidatesHold(t, project);
    PickedAreThePrefix(t, project, cfg, now, o);
    PrefixDisjointFromRest(Candidates(t, project), Choose(t, project, cfg, now).count, o);
  }

  /** After a reservation the candidates are the rows behind the selected prefix. */
  lemma CandidatesAfterReserve(t: Tables, p: PackageId, plan: Plan, keep: bool, now: int, o: string)
    requires Inv(t) && Selectable(t, p)
    ensures
      var u := InsertReservation(t, p, plan, keep, now);
      && (IsCandidate(u, p.project, o) <==> IsCandidate(t, p.project, o) && !AmongFirst(p, |p.members|, o))
      && (o in t.artifacts ==> o in u.artifacts && u.artifacts[o].size == t.artifacts[o].size >= 1)
  {
    ReserveRow(t, p, plan, keep, now, o);
    if o in t.artifacts {
      assert ArtifactOk(t, o);
    }
  }

  /** The backlog left by a reservation is the total minus the selected bytes. */
  lemma BacklogAfterReserve(t: Tables, project: string, cfg: Packaging, now: int, plan: Plan, keep: bool)
    requires Inv(t) && Backlogged(t, project) && Choose(t, project, cfg, now).Reserve?
    requires Selectable(t, Picked(t, project, cfg, now))
    ensures
      Backlog(InsertReservation(t, Picked(t, project, cfg, now), plan, keep, Unix(now)), project)
        == Backlog(t, project) - Sum(BacklogSizes(t, project)[..Choose(t, project, cfg, now).count])
  {
    var count := Choose(t, project, cfg, now).count;
    var p := Picked(t, project, cfg, now);
    var rest := Candidates(t, project)[count..];
    var u := InsertReservation(t, p, plan, keep, Unix(now));
    var left := CandidateSet(u, project);
    forall o
      ensures o in rest <==> o in left
      ensures o in left ==> o in t.artifacts && u.artifacts[o].size == t.artifacts[o].size >= 1
    {
      PrefixOrRest(t, project, cfg, now, o);
      CandidatesAfterReserve(t, p, plan, keep, Unix(now), o);
    }
    RestSum(t, project, count, left);
    TotalSizeMonotone(t, u, left, left);
  }

  lemma RestSum(t: Tables, project: string, count: nat, left: set<string>)
    requires Known(t, Candidates(t, project)) && count <= |Candidates(t, project)|
    requires forall o :: o in Candidates(t, project)[count..] <==> o in left
    ensures left <= t.artifacts.Keys
    ensures TotalSize(t, left) == Backlog(t, project) - Sum(BacklogSizes(t, project)[..count])
  {
    CandidatesHold(t, project);
    TotalIsBacklog(t, project);
    SuffixSum(t, Candidates(t, project), count, left);
  }

  lemma SuffixSum(t: Tables, rows: seq<string>, count: nat, left: set<string>)
    requires Known(t, rows) && count <= |rows| && left <= t.artifacts.Keys
    requires forall o :: o in rows[count..] <==> o in left
    requires forall i, j :: 0 <= i < j < |rows| ==> rows[i] != rows[j]
    ensures TotalSize(t, left) == Sum(Sizes(t, rows)) - Sum(Sizes(t, rows)[..count])
  {
    SumSplit(Sizes(t, rows), count);
    assert Sizes(t, rows)[count..] == Sizes(t, rows[count..]);
    SumOfRows(t, rows[count..], left);
  }

  /** A reservation persists the flag exactly when a round is on or starts with this call and a
      target's worth is left. */
  lemma FlagAfterReserve(t: Tables, project: string, cfg: Packaging, now: int, plan: Plan)
    requires Inv(t) && Backlogged(t, project) && Choose(t, project, cfg, now).Reserve?
    requires Selectable(t, Picked(t, project, cfg, now))
    ensures
      var u := InsertReservation(t, Picked(t, project, cfg, now), plan, Choose(t, project, cfg, now).draining, Unix(now));
      && project in u.draining
      && (u.draining[project] <==>
            && cfg.PackMerge?
            && (t.draining[project] || Backlog(t, project) >= cfg.merge.trigger)
            && Backlog(u, project) >= cfg.merge.target)
  {
    var keep := Choose(t, project, cfg, now).draining;
    BacklogAfterReserve(t, project, cfg, now, plan, keep);
    ReserveFlag(t, Picked(t, project, cfg, now), plan, keep, Unix(now));
    BacklogPositive(t, project);
    SumAtLeastLength(BacklogSizes(t, project)[..Choose(t, project, cfg, now).count]);
  }

  /** Every call keeps the flag linked to the backlog. */
  lemma ReservePackageKeepsDraining(t0: Tables, project: string, cfg: Packaging,
                                    makePlan: PackageId -> Option<Plan>, now: int, fault: bool)
    requires Inv(t0) && DrainingOk(t0, project, cfg)
    ensures DrainingOk(ReservePackage(t0, project, cfg, makePlan, now, fault).0, project, cfg)
  {
    if ReservePackage(t0, project, cfg, makePlan, now, fault).1.Reserved? {
      var t := EnsureProject(t0, project);
      ReservedPackage(t0, project, cfg, makePlan, now, fault);
      FlagAfterReserve(t, project, cfg, now, makePlan(Picked(t, project, cfg, now)).value);
    } else {
      var u := ReservePackage(t0, project, cfg, makePlan, now, fault).0;
      ReservePackageKeeps(t0, project, cfg, makePlan, now, fault);
      UnreservedFlags(t0, project, cfg, makePlan, now, fault);
      DrainingKept(t0, u, project, cfg);
    }
  }

  lemma SameBacklog(t0: Tables, project: string)
    requires Inv(t0)
    ensures Backlog(EnsureProject(t0, project), project) == Backlog(t0, project)
  {
    var t := EnsureProject(t0, project);
    forall o | o in CandidateSet(t0, project) ensures t0.artifacts[o].size >= 1 {
      assert ArtifactOk(t0, o);
    }
    assert CandidateSet(t, project) == CandidateSet(t0, project);
    TotalSizeMonotone(t0, t, CandidateSet(t0, project), CandidateSet(t, project));
  }

  /** During a round every call forms a package, and it clears the flag exactly when less than one
      target is left. */
  lemma DrainingFormsPackages(t0: Tables, project: string, cfg: Packaging,
                              makePlan: PackageId -> Option<Plan>, now: int)
    requires Inv(t0) && ValidPackaging(cfg) && DrainingOk(t0, project, cfg)
    requires project in t0.draining && t0.draining[project]
    requires forall p :: makePlan(p).Some?
    ensures
      var (u, result) := ReservePackage(t0, project, cfg, makePlan, now, false);
      && result.Reserved?
      && project in u.draining
      && (u.draining[project] <==> Backlog(u, project) >= cfg.merge.target)
  {
    CandidatesHold(t0, project);
    TotalIsBacklog(t0, project);
    assert Choose(t0, project, cfg, now).Reserve?;
    CallReserves(t0, project, cfg, makePlan, now, false);
    FlagAfterReserve(t0, project, cfg, now, makePlan(Picked(t0, project, cfg, now)).value);
  }

  /** A mergewarc call reserves exactly when the backlog reached the trigger, a round is on, or the
      oldest candidate waited long enough. */
  lemma WhenMergeReserves(t0: Tables, project: string, merge: Merge, makePlan: PackageId -> Option<Plan>, now: int)
    requires Inv(t0) && ValidMerge(merge) && DrainingOk(t0, project, PackMerge(merge))
    requires forall p :: makePlan(p).Some?
    requires Known(t0, Candidates(t0, project)) && Candidates(t0, project) != []
    ensures
      ReservePackage(t0, project, PackMerge(merge), makePlan, now, false).1.Reserved? <==>
        || Backlog(t0, project) >= merge.trigger
        || (project in t0.draining && t0.draining[project])
        || Aged(now, t0.artifacts[Candidates(t0, project)[0]].acceptedAt, merge.maxWait)
  {
    var t := EnsureProject(t0, project);
    SameCandidates(t0, project);
    SameBacklog(t0, project);
    WhenMergeChooses(t, project, merge, now);
    ReservesIffChosen(t0, project, PackMerge(merge), makePlan, now);
  }

  lemma ReservesIffChosen(t0: Tables, project: string, cfg: Packaging, makePlan: PackageId -> Option<Plan>, now: int)
    requires Inv(t0) && Backlogged(EnsureProject(t0, project), project)
    requires forall p :: makePlan(p).Some?
    ensures ReservePackage(t0, project, cfg, makePlan, now, false).1.Reserved?
       <==> Choose(EnsureProject(t0, project), project, cfg, now).Reserve?
  {
    if Choose(EnsureProject(t0, project), project, cfg, now).Reserve? {
      CallReserves(t0, project, cfg, makePlan, now, false);
    }
  }

  lemma WhenMergeChooses(t: Tables, project: string, merge: Merge, now: int)
    requires ValidMerge(merge) && DrainingOk(t, project, PackMerge(merge)) && Backlogged(t, project)
    ensures Choose(t, project, PackMerge(merge), now).Reserve? <==>
      || Backlog(t, project) >= merge.trigger
      || t.draining[project]
      || Aged(now, t.artifacts[Candidates(t, project)[0]].acceptedAt, merge.maxWait)
  {
    TotalIsBacklog(t, project);
  }

  lemma SameCandidates(t0: Tables, project: string)
    ensures Known(EnsureProject(t0, project), Candidates(EnsureProject(t0, project), project))
    ensures Candidates(EnsureProject(t0, project), project) == Candidates(t0, project)
  {
    var t := EnsureProject(t0, project);
    CandidatesHold(t, project);
    CandidatesHold(t0, project);
    assert CandidateSet(t, project) == CandidateSet(t0, project);
    SameListing(CandidateSet(t, project), CandidateRank(t), CandidateRank(t0));
  }

  // ---------- Arrivals during a call ----------

  lemma {:induction false} ArrivalCommutesWithMembers(t: Tables, p: PackageId, n: nat, o: string, row: Artifact)
    requires n <= |p.members| && AllKnown(t, p) && o !in t.artifacts
    ensures InsertMembers(AddArtifact(t, o, row), p, n) == AddArtifact(InsertMembers(t, p, n), o, row)
  {
    if n > 0 {
      ArrivalCommutesWithMembers(t, p, n - 1, o, row);
      var before := InsertMembers(t, p, n - 1);
      var id := p.members[n - 1].objectId;
      assert before.artifacts[o := row][id := before.artifacts[id].(packageId := Some(p))]
          == before.artifacts[id := before.artifacts[id].(packageId := Some(p))][o := row];
    }
  }

  /** The receiver may index an artifact between a call's scan and its transaction: the tables end up as
      if it had arrived after the call, so the call may be taken as one step. */
  lemma ArrivalCommutes(t: Tables, p: PackageId, plan: Plan, keep: bool, now: int, o: string, row: Artifact)
    requires Selectable(t, p) && o !in t.artifacts
    ensures InsertReservation(AddArtifact(t, o, row), p, plan, keep, now)
         == AddArtifact(InsertReservation(t, p, plan, keep, now), o, row)
  {
    var inserted := InsertPackage(t, p, NewPackage(|p.members|, now), plan);
    ArrivalCommutesWithMembers(inserted, p, |p.members|, o, row);
    assert InsertPackage(AddArtifact(t, o, row), p, NewPackage(|p.members|, now), plan) == AddArtifact(inserted, o, row);
  }
}
