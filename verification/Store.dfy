/**
 The delivery database as an object: five maps that every method updates in place, one method per
 statement or transaction. Each method is proved equal to the table function of the same name, and
 each query to the row its ORDER BY puts first.
 */
module Store {
  import opened Wrappers
  import opened Sequences
  import opened Clock
  import opened Schema
  import opened TablesInvariant
  import opened Ordering
  import opened Draining
  import opened Reservation

  // ---------- What the queries select, and in which order ----------
  // Ties on package_id, whose order is that of its hash, are left open.

  function DueBuilds(t: Tables, now: int): set<PackageId> {
    set p | p in t.packages && BuildDue(t, p, now)
  }

  /** ORDER BY created_at. */
  function BuildRank(t: Tables): PackageId -> Rank {
    p => if p in t.packages then Rank(t.packages[p].createdAt, 0, 0, "") else Rank(0, 0, 0, "")
  }

  function DueSources(t: Tables, now: int): set<string> {
    set o | o in t.artifacts && SourcePurgeDue(t, o, now)
  }

  /** ORDER BY next_source_purge_at, created_at, accepted_at, object_id. */
  function SourceRank(t: Tables): string -> Rank {
    o =>
      if o in t.artifacts && t.artifacts[o].packageId.Some? && t.artifacts[o].packageId.value in t.packages then
        Rank(t.artifacts[o].nextSourcePurge, t.packages[t.artifacts[o].packageId.value].createdAt,
             t.artifacts[o].acceptedAt, o)
      else Rank(0, 0, 0, o)
  }

  function DueClaims(t: Tables, now: int): set<DeliveryKey> {
    set k | k in t.deliveries && Claimable(t, k, now)
  }

  /** ORDER BY pending first, created_at. */
  function ClaimRank(t: Tables): DeliveryKey -> Rank {
    k =>
      if k in t.deliveries && k.packageId in t.packages then
        Rank(if t.deliveries[k].state.Pending? then 0 else 1, t.packages[k.packageId].createdAt, 0, "")
      else Rank(0, 0, 0, "")
  }

  function DuePurges(t: Tables, now: int): set<PackageId> {
    set p | p in t.packages && PurgeDue(t, p, now)
  }

  /** ORDER BY next_purge_attempt_at. */
  function PurgeRank(t: Tables): PackageId -> Rank {
    p =>
      if p in t.packages && t.packages[p].nextPurgeAt.Some? then Rank(t.packages[p].nextPurgeAt.value, 0, 0, "")
      else Rank(0, 0, 0, "")
  }

  /** ORDER BY ordinal. */
  function MemberRank(t: Tables): string -> Rank {
    o => if o in t.members then Rank(t.members[o].ordinal, 0, 0, o) else Rank(0, 0, 0, o)
  }

  /** The orders in the columns' own terms. */
  ghost predicate ClaimBefore(t: Tables, k: DeliveryKey, j: DeliveryKey) {
    && k in t.deliveries && j in t.deliveries
    && (t.deliveries[j].state.Pending? ==> t.deliveries[k].state.Pending?)
    && ((t.deliveries[j].state.Pending? <==> t.deliveries[k].state.Pending?) ==>
          && k.packageId in t.packages && j.packageId in t.packages
          && t.packages[k.packageId].createdAt <= t.packages[j.packageId].createdAt)
  }

  ghost predicate SourceBefore(t: Tables, o: string, x: string) {
    && o in t.artifacts && x in t.artifacts
    && var a, b := t.artifacts[o], t.artifacts[x];
       && a.packageId.Some? && a.packageId.value in t.packages && b.packageId.Some? && b.packageId.value in t.packages
       && a.nextSourcePurge <= b.nextSourcePurge
       && (a.nextSourcePurge == b.nextSourcePurge ==>
             && t.packages[a.packageId.value].createdAt <= t.packages[b.packageId.value].createdAt
             && (t.packages[a.packageId.value].createdAt == t.packages[b.packageId.value].createdAt ==>
                   a.acceptedAt <= b.acceptedAt))
  }

  /** The later of a column and a candidate, or the candidate if the column is NULL. */
  ghost predicate IsLatest(column: Option<int>, before: Option<int>, candidate: int) {
    && column.Some? && column.value >= candidate
    && (before.Some? ==> column.value >= before.value)
    && (column.value == candidate || column == before)
  }

  /** What is kept of an error message. */
  ghost function First4096(message: string): (kept: string)
    ensures kept <= message && |kept| <= 4096 && (|message| <= 4096 ==> kept == message)
    ensures |message| >= 4096 ==> |kept| == 4096
  {
    message[..if |message| < 4096 then |message| else 4096]
  }

  /** The UPDATE of one invalid object, filtered by its package. */
  function MarkError(a: Artifact, p: PackageId, errors: map<string, string>, o: string): Artifact {
    if o in errors && a.packageId == Some(p) then a.(packagingError := Some(errors[o])) else a
  }

  /** The UPDATE of one artifact, filtered by its package and its lack of an error. */
  function ReturnGood(a: Artifact, p: PackageId): Artifact {
    if a.packageId == Some(p) && a.packagingError.None? then a.(packageId := None) else a
  }

  lemma MarkThenReturn(a: Artifact, p: PackageId, errors: map<string, string>, o: string)
    ensures ReturnGood(MarkError(a, p, errors, o), p) == IsolateArtifact(a, p, errors, o)
  {
  }

  /** The statements of reservePackage before its transaction. */
  datatype Lookup = InsertProject | ReadFlag | ReadCandidates | ClearFlag

  class DeliveryStore {
    var artifacts: map<string, Artifact>
    var draining: map<string, bool>
    var packages: map<PackageId, Package>
    var members: map<string, Member>
    var deliveries: map<DeliveryKey, Delivery>

    function Contents(): Tables
      reads this
    {
      Tables(artifacts, draining, packages, members, deliveries)
    }

    constructor ()
      ensures Contents() == EMPTY
    {
      artifacts, draining, packages, members, deliveries := map[], map[], map[], map[], map[];
    }

    /** tx.Rollback: every row goes back to what it was at the start of the transaction. */
    method Rollback(start: Tables)
      modifies this
      ensures Contents() == start
    {
      artifacts, draining, packages := start.artifacts, start.draining, start.packages;
      members, deliveries := start.members, start.deliveries;
    }

    // ---------- Artifacts ----------

    method AddArtifact(o: string, row: Artifact)
      modifies this
      ensures Contents() == Schema.AddArtifact(old(Contents()), o, row)
      ensures artifacts.Keys == old(artifacts).Keys + {o}
      ensures forall x :: x in old(artifacts) ==> artifacts[x] == old(artifacts)[x]
      ensures o !in old(artifacts) ==> artifacts[o] == row
    {
      if o !in artifacts {
        artifacts := artifacts[o := row];
      }
    }

    method HasArtifact(o: string) returns (exists_: bool)
      ensures exists_ <==> o in Contents().artifacts
    {
      exists_ := o in artifacts;
    }

    // ---------- Reservation ----------

    /** The scan that collects the candidates in order and adds up their sizes. */
    method ListCandidates(project: string) returns (rows: seq<string>, sizes: seq<int>, total: int)
      ensures rows == Candidates(Contents(), project)
      ensures Known(Contents(), rows) && sizes == Sizes(Contents(), rows)
      ensures total == Sum(sizes)
      ensures forall i, j :: 0 <= i < j < |rows| ==>
        var a, b := artifacts[rows[i]].acceptedAt, artifacts[rows[j]].acceptedAt;
        a < b || (a == b && TextLe(rows[i], rows[j]))
    {
      CandidatesHold(Contents(), project);
      rows := SelectAll(CandidateSet(Contents(), project), CandidateRank(Contents()));
      sizes := Sizes(Contents(), rows);
      total := 0;
      for i := 0 to |rows|
        invariant total == Sum(sizes[..i])
      {
        SumSnoc(sizes, i);
        total := total + artifacts[rows[i]].size;
      }
      assert sizes[..|rows|] == sizes;
    }

    /** The selection: the first candidate alone, or the greedy prefix of a drain or an old backlog. */
    method Select(cfg: Packaging, flag: bool, rows: seq<string>, sizes: seq<int>, total: int, now: int)
      returns (decision: Decision)
      requires rows != [] && Known(Contents(), rows)
      requires sizes == Sizes(Contents(), rows) && total == Sum(sizes)
      ensures decision ==
        match cfg
        case PackIdentity => Decision.Reserve(1, false)
        case PackMerge(merge) =>
          Decide(merge, flag, sizes, Aged(now, Contents().artifacts[rows[0]].acceptedAt, merge.maxWait))
    {
      if cfg.PackIdentity? {
        return Decision.Reserve(1, false);
      }
      var aged := now - artifacts[rows[0]].acceptedAt * SECOND >= cfg.merge.maxWait;
      var drains := flag;
      if total >= cfg.merge.trigger {
        drains := true;
      }
      if drains && total < cfg.merge.target {
        drains := false;
      }
      if !drains && !aged {
        return Wait;
      }
      var count, bytes := SelectMembers(sizes, cfg.merge.target);
      decision := Decision.Reserve(count, drains && total - bytes >= cfg.merge.target);
    }

    /** The member loop of the transaction. It stops on a failing statement, on a key that is taken,
        and on an artifact update that does not affect exactly one row. */
    method InsertMemberRows(p: PackageId, faultAt: Option<nat>) returns (ok: bool)
      requires IdentityOk(p) && AllKnown(Contents(), p)
      requires forall i :: 0 <= i < |p.members| ==>
        && Contents().artifacts[p.members[i].objectId].packageId.None?
        && Contents().artifacts[p.members[i].objectId].size == p.members[i].size
      modifies this
      ensures ok ==> Contents() == InsertMembers(old(Contents()), p, |p.members|)
      ensures ok ==> RowsFree(old(Contents()), p, |p.members|)
      ensures !ok ==> faultAt.Some? || exists i :: 0 <= i < |p.members| && RowConflicts(old(Contents()), p, i)
    {
      ghost var start := Contents();
      var offset := 0;
      for i := 0 to |p.members|
        invariant Contents() == InsertMembers(start, p, i)
        invariant offset == Offset(p, i)
        invariant RowsFree(start, p, i)
      {
        NextRow(start, p, i);
        ok := InsertMemberRow(p, i, offset, faultAt);
        if !ok {
          return;
        }
        offset := offset + p.members[i].size;
      }
      ok := true;
    }

    /** One turn of that loop: its two statements. */
    method InsertMemberRow(p: PackageId, i: nat, offset: int, faultAt: Option<nat>) returns (ok: bool)
      requires i < |p.members| && p.members[i].objectId in artifacts
      requires artifacts[p.members[i].objectId].packageId.None?
      modifies this
      ensures ok ==> Contents() == InsertMember(old(Contents()), p, i, p.members[i].objectId, offset)
      ensures ok ==> !RowConflicts(old(Contents()), p, i)
      ensures !ok ==> faultAt.Some? || RowConflicts(old(Contents()), p, i)
    {
      var o := p.members[i].objectId;
      if faultAt == Some(2 + 2 * i) || RowConflicts(Contents(), p, i) {
        return false;
      }
      members := members[o := Member(p, i, offset, artifacts[o].size, artifacts[o].checksum)];
      if faultAt == Some(3 + 2 * i) || artifacts[o].packageId.Some? {
        return false;
      }
      artifacts := artifacts[o := artifacts[o].(packageId := Some(p))];
      ok := true;
    }

    /** reservePackage. `lookup` is a statement before the transaction that fails, `faultAt` one inside it;
        the ghost results report which of them struck. */
    method ReservePackage(project: string, cfg: Packaging, makePlan: PackageId -> Option<Plan>, now: int,
                          lookup: Option<Lookup>, faultAt: Option<nat>)
      returns (result: Result, ghost struck: bool, ghost fault: bool)
      requires Inv(Contents())
      modifies this
      ensures (struck ==> lookup.Some?) && (fault ==> faultAt.Some?)
      ensures struck ==>
        result.Failed? && (Contents() == old(Contents()) || Contents() == EnsureProject(old(Contents()), project))
      ensures !struck ==>
        (Contents(), result) == Reservation.ReservePackage(old(Contents()), project, cfg, makePlan, now, fault)
      ensures Inv(Contents())
    {
      ghost var t0 := Contents();
      EnsureProjectKeeps(t0, project);
      if lookup == Some(InsertProject) {
        return Failed, true, false;
      }
      if project !in draining {
        draining := draining[project := false];
      }
      if lookup == Some(ReadFlag) || lookup == Some(ReadCandidates) {
        return Failed, true, false;
      }
      result, struck, fault := ReserveRow(project, cfg, makePlan, now, lookup == Some(ClearFlag), faultAt);
      ReservePackageKeeps(t0, project, cfg, makePlan, now, fault);
    }

    method ReserveRow(project: string, cfg: Packaging, makePlan: PackageId -> Option<Plan>, now: int,
                      clearFails: bool, faultAt: Option<nat>)
      returns (result: Result, ghost struck: bool, ghost fault: bool)
      requires Inv(Contents()) && project in draining
      modifies this
      ensures (struck ==> clearFails) && (fault ==> faultAt.Some?)
      ensures struck ==> result.Failed? && Contents() == old(Contents())
      ensures !struck ==> (Contents(), result) == ReserveFrom(old(Contents()), project, cfg, makePlan, now, fault)
    {
      ghost var t := Contents();
      struck, fault := false, false;
      var rows, sizes, total := ListCandidates(project);
      if rows == [] {
        if draining[project] {
          if clearFails {
            return Failed, true, false;
          }
          draining := draining[project := false];
        }
        return Nothing, false, false;
      }
      var decision := Select(cfg, draining[project], rows, sizes, total, now);
      assert decision == Choose(t, project, cfg, now);
      if decision.Wait? {
        return Nothing, false, false;
      }
      var p := Derive(Contents(), project, PackagerOf(cfg), rows[..decision.count]);
      PickedFresh(t, project, cfg, now);
      var plan := makePlan(p);
      if plan.None? {
        return Failed, false, false;
      }
      result := Commit(p, plan.value, decision.draining, Unix(now), faultAt);
      fault := result.Failed?;
    }

    /** The transaction of reservePackage. */
    method Commit(p: PackageId, plan: Plan, keep: bool, now: int, faultAt: Option<nat>) returns (result: Result)
      requires Inv(Contents()) && Selectable(Contents(), p) && p.project in draining
      modifies this
      ensures result.Failed? ==> faultAt.Some? && Contents() == old(Contents())
      ensures !result.Failed? ==>
        result == Reserved(p) && Contents() == InsertReservation(old(Contents()), p, plan, keep, now)
      ensures !result.Failed? ==> AddsFreshRows(old(Contents()), Contents(), p, plan, now)
    {
      var start := Contents();
      NoConflict(start, p);
      if faultAt == Some(0) {
        return Failed;
      }
      if p in packages {
        return Nothing;
      }
      packages := packages[p := NewPackage(|p.members|, now)];
      if faultAt == Some(1) || DeliveryKey(p, SINK) in deliveries {
        Rollback(start);
        return Failed;
      }
      deliveries := deliveries[DeliveryKey(p, SINK) := NewDelivery(plan)];
      ghost var t1 := Contents();
      SameConflicts(start, t1, p);
      var ok := InsertMemberRows(p, faultAt);
      InsertMembersDraining(t1, p, |p.members|);
      if !ok || faultAt == Some(2 + 2 * |p.members|) || faultAt == Some(3 + 2 * |p.members|) {
        Rollback(start);
        return Failed;
      }
      draining := draining[p.project := keep];
      ReserveAddsFreshRows(start, p, plan, keep, now);
      result := Reserved(p);
    }

    // ---------- Building ----------

    method NextBuildingPackage(now: int) returns (next: Option<PackageId>)
      modifies this
      ensures next.None? ==> DueBuilds(old(Contents()), now) == {} && Contents() == old(Contents())
      ensures next.Some? ==>
        && IsFirst(DueBuilds(old(Contents()), now), BuildRank(old(Contents())), next.value)
        && Contents() == StartBuild(old(Contents()), next.value)
      ensures next.Some? ==>
        var p := next.value;
        var before := old(packages)[p];
        && (forall q :: q in DueBuilds(old(Contents()), now) ==> before.createdAt <= old(packages)[q].createdAt)
        && packages == old(packages)[p := packages[p]]
        && packages[p] == before.(buildAttempts := before.buildAttempts + 1, buildError := None)
    {
      var due := DueBuilds(Contents(), now);
      if due == {} {
        return None;
      }
      var p := SelectFirst(due, BuildRank(Contents()));
      packages := packages[p := packages[p].(buildAttempts := packages[p].buildAttempts + 1, buildError := None)];
      next := Some(p);
    }

    /** Member rows of a package in ordinal order. */
    method PackageMembers(p: PackageId) returns (rows: seq<string>)
      ensures rows == Listing(MembersOf(Contents(), p), MemberRank(Contents()))
      ensures forall o :: o in rows <==> o in MembersOf(Contents(), p)
      ensures Ordered(rows, MemberRank(Contents()))
      ensures forall i, j :: 0 <= i < j < |rows| ==>
        rows[i] in members && rows[j] in members && members[rows[i]].ordinal <= members[rows[j]].ordinal
    {
      rows := SelectAll(MembersOf(Contents(), p), MemberRank(Contents()));
      ListingHolds(MembersOf(Contents(), p), MemberRank(Contents()));
    }

    method SealPackage(p: PackageId, size: int, checksum: string, manifestChecksum: string, now: int)
      returns (ok: bool)
      modifies this
      ensures ok <==> old(IsBuilding(Contents(), p))
      ensures Contents() == Seal(old(Contents()), p, size, checksum, manifestChecksum, now)
      ensures ok ==>
        && packages == old(packages)[p := packages[p]]
        && packages[p] == old(packages)[p].(
             state := Sealed, size := Some(size), sealedAt := Some(now), buildError := None,
             checksum := Some(checksum), manifestChecksum := Some(manifestChecksum))
    {
      ok := p in packages && packages[p].state.Building?;
      if ok {
        packages := packages[p := packages[p].(
          state := Sealed, size := Some(size), checksum := Some(checksum),
          manifestChecksum := Some(manifestChecksum), buildError := None, sealedAt := Some(now))];
      }
    }

    method MarkPackageBuildRetry(p: PackageId, message: string, retryAt: int) returns (ok: bool)
      modifies this
      ensures ok <==> old(IsBuilding(Contents(), p))
      ensures Contents() == MarkBuildRetry(old(Contents()), p, message, retryAt)
      ensures ok ==>
        && packages == old(packages)[p := packages[p]]
        && packages[p] == old(packages)[p].(nextBuildAt := retryAt, buildError := Some(Failure(First4096(message))))
    {
      ok := p in packages && packages[p].state.Building?;
      if ok {
        packages := packages[p := packages[p].(
          nextBuildAt := retryAt, buildError := Some(Failure(Truncate(message))))];
      }
    }

    /** The loop that writes one error per invalid object. */
    method WriteErrors(p: PackageId, invalid: map<string, string>) returns (errors: map<string, string>)
      modifies `artifacts
      ensures errors == TruncateAll(invalid)
      ensures artifacts == map o | o in old(artifacts) :: MarkError(old(artifacts)[o], p, errors, o)
    {
      errors := map[];
      var rest := invalid.Keys;
      ghost var start := artifacts;
      while rest != {}
        invariant rest <= invalid.Keys
        invariant errors == map o | o in invalid && o !in rest :: Truncate(invalid[o])
        invariant artifacts == map o | o in start :: MarkError(start[o], p, errors, o)
        decreases |rest|
      {
        var o :| o in rest;
        errors := errors[o := Truncate(invalid[o])];
        if o in artifacts && artifacts[o].packageId == Some(p) {
          artifacts := artifacts[o := artifacts[o].(packagingError := Some(errors[o]))];
        }
        rest := rest - {o};
      }
    }

    /** isolateInvalidMembers: errors on the bad members, the good ones back to the queue, the package
        blocked; a fault at any statement leaves no trace. */
    method IsolateInvalidMembers(p: PackageId, invalid: map<string, string>, fault: bool) returns (ok: bool)
      modifies this
      ensures ok <==> !fault
      ensures Contents() == if fault then old(Contents()) else Isolate(old(Contents()), p, invalid)
      ensures !fault && old(IsBuilding(Contents(), p)) ==>
        && packages == old(packages)[p := packages[p]] && packages[p].state.Blocked?
        && packages[p].memberCount == |invalid| && packages[p].buildError.Some?
        && packages[p].buildError.value.InvalidMembers? && packages[p].buildError.value.messages.Keys == invalid.Keys
        && forall o :: o in invalid ==> packages[p].buildError.value.messages[o] == First4096(invalid[o])
    {
      var start := Contents();
      var errors := WriteErrors(p, invalid);
      DeleteGoodMembers(p, start, errors);
      ReturnGoodArtifacts(p, start.artifacts, errors);
      if p in packages && packages[p].state.Building? {
        packages := packages[p := packages[p].(
          state := Blocked, memberCount := |invalid|, buildError := Some(InvalidMembers(errors)))];
      }
      if fault {
        Rollback(start);
      }
      ok := !fault;
    }

    /** The DELETE of the good member rows. */
    method DeleteGoodMembers(p: PackageId, ghost start: Tables, ghost errors: map<string, string>)
      requires members == start.members
      requires artifacts == map o | o in start.artifacts :: MarkError(start.artifacts[o], p, errors, o)
      modifies `members
      ensures members == map o | o in start.members && KeepsMember(start, p, errors, o) :: start.members[o]
    {
      members := map o | o in members
        && (members[o].packageId != p
            || (o in artifacts && artifacts[o].packageId == Some(p) && artifacts[o].packagingError.Some?)) :: members[o];
      assert forall o :: o in members <==> o in start.members && KeepsMember(start, p, errors, o);
    }

    /** The UPDATE that returns the artifacts without an error to the queue. */
    method ReturnGoodArtifacts(p: PackageId, ghost start: map<string, Artifact>, ghost errors: map<string, string>)
      requires artifacts == map o | o in start :: MarkError(start[o], p, errors, o)
      modifies `artifacts
      ensures artifacts == map o | o in start :: IsolateArtifact(start[o], p, errors, o)
    {
      forall o | o in start {
        MarkThenReturn(start[o], p, errors, o);
      }
      artifacts := map o | o in artifacts :: ReturnGood(artifacts[o], p);
    }

    // ---------- Source purge ----------

    method NextSourceToPurge(now: int) returns (next: Option<string>)
      ensures next.None? ==> DueSources(Contents(), now) == {}
      ensures next.Some? ==> IsFirst(DueSources(Contents(), now), SourceRank(Contents()), next.value)
      ensures next.Some? ==> forall x :: x in DueSources(Contents(), now) ==>
        SourceBefore(Contents(), next.value, x)
    {
      var due := DueSources(Contents(), now);
      if due == {} {
        return None;
      }
      var o := SelectFirst(due, SourceRank(Contents()));
      next := Some(o);
    }

    method MarkSourcePurged(o: string, now: int) returns (ok: bool)
      modifies this
      ensures ok <==> old(SourceUnpurged(Contents(), o))
      ensures Contents() == Schema.MarkSourcePurged(old(Contents()), o, now)
      ensures ok ==> artifacts == old(artifacts)[o := artifacts[o]] && !SourcePurgeDue(Contents(), o, now)
      ensures ok ==>
        artifacts[o] == old(artifacts)[o].(sourcePurgedAt := Some(now), sourcePurgeError := None)
    {
      ok := o in artifacts && artifacts[o].sourcePurgedAt.None?;
      if ok {
        artifacts := artifacts[o := artifacts[o].(sourcePurgedAt := Some(now), sourcePurgeError := None)];
      }
    }

    method MarkSourcePurgeRetry(o: string, message: string, retryAt: int) returns (ok: bool)
      modifies this
      ensures ok <==> old(SourceUnpurged(Contents(), o))
      ensures Contents() == Schema.MarkSourcePurgeRetry(old(Contents()), o, message, retryAt)
      ensures ok ==>
        && artifacts == old(artifacts)[o := artifacts[o]] && artifacts[o].sourcePurgedAt.None?
        && artifacts[o] == old(artifacts)[o].(nextSourcePurge := retryAt, sourcePurgeError := Some(First4096(message)))
    {
      ok := o in artifacts && artifacts[o].sourcePurgedAt.None?;
      if ok {
        artifacts := artifacts[o := artifacts[o].(
          nextSourcePurge := retryAt, sourcePurgeError := Some(Truncate(message)))];
      }
    }

    // ---------- Deliveries ----------

    method RecoverInterruptedDeliveries(now: int)
      modifies this
      ensures Contents() == Recover(old(Contents()), now)
      ensures deliveries.Keys == old(deliveries).Keys
      ensures forall k :: k in deliveries && !old(deliveries)[k].state.Delivering? ==> deliveries[k] == old(deliveries)[k]
      ensures forall k :: k in deliveries && old(deliveries)[k].state.Delivering? ==>
        deliveries[k] == old(deliveries)[k].(
          state := RetryWait, nextAttempt := now, progress := None,
          lastError := Some("delivery process stopped before recording an outcome"))
    {
      deliveries := map k | k in deliveries ::
        if deliveries[k].state.Delivering?
        then deliveries[k].(state := RetryWait, nextAttempt := now, lastError := Some(INTERRUPTED), progress := None)
        else deliveries[k];
    }

    method ClaimPackageDelivery(now: int) returns (next: Option<DeliveryKey>)
      modifies this
      ensures next.None? ==> DueClaims(old(Contents()), now) == {} && Contents() == old(Contents())
      ensures next.Some? ==>
        && IsFirst(DueClaims(old(Contents()), now), ClaimRank(old(Contents())), next.value)
        && Contents() == Claim(old(Contents()), next.value)
      ensures next.Some? ==>
        var k := next.value;
        var before := old(deliveries)[k];
        && (forall j :: j in DueClaims(old(Contents()), now) ==> ClaimBefore(old(Contents()), k, j))
        && deliveries == old(deliveries)[k := deliveries[k]]
        && deliveries[k] == before.(state := Delivering, attempts := before.attempts + 1, progress := None)
    {
      var due := DueClaims(Contents(), now);
      if due == {} {
        return None;
      }
      var k := SelectFirst(due, ClaimRank(Contents()));
      deliveries := deliveries[k := deliveries[k].(
        state := Delivering, attempts := deliveries[k].attempts + 1, progress := None)];
      next := Some(k);
    }

    method MarkPackageDelivered(k: DeliveryKey, remoteId: string, deliveredAt: int, purgeAfter: int)
      returns (ok: bool)
      modifies this
      ensures ok <==> old(InDelivery(Contents(), k))
      ensures Contents() == MarkDelivered(old(Contents()), k, remoteId, deliveredAt, purgeAfter)
      ensures ok ==>
        && deliveries == old(deliveries)[k := deliveries[k]]
        && deliveries[k] == old(deliveries)[k].(
             state := Delivered, remoteId := Some(remoteId), deliveredAt := Some(deliveredAt),
             lastError := None, progress := None, nextAttempt := 0)
      ensures ok && k.packageId in packages ==>
        && packages == old(packages)[k.packageId := packages[k.packageId]]
        && packages[k.packageId] == old(packages)[k.packageId].(
             purgeAfter := packages[k.packageId].purgeAfter, nextPurgeAt := packages[k.packageId].nextPurgeAt)
        && IsLatest(packages[k.packageId].purgeAfter, old(packages)[k.packageId].purgeAfter, purgeAfter)
        && IsLatest(packages[k.packageId].nextPurgeAt, old(packages)[k.packageId].nextPurgeAt, purgeAfter)
    {
      ok := k in deliveries && deliveries[k].state.Delivering?;
      if !ok {
        return;
      }
      deliveries := deliveries[k := deliveries[k].(
        state := Delivered, nextAttempt := 0, remoteId := Some(remoteId), lastError := None,
        progress := None, deliveredAt := Some(deliveredAt))];
      var p := k.packageId;
      if p in packages {
        packages := packages[p := packages[p].(
          purgeAfter := Later(packages[p].purgeAfter, purgeAfter),
          nextPurgeAt := Later(packages[p].nextPurgeAt, purgeAfter))];
      }
    }

    method MarkPackageRetry(k: DeliveryKey, message: string, retryAt: int) returns (ok: bool)
      modifies this
      ensures ok <==> old(InDelivery(Contents(), k))
      ensures Contents() == MarkRetry(old(Contents()), k, message, retryAt)
      ensures ok ==>
        && deliveries == old(deliveries)[k := deliveries[k]]
        && deliveries[k] == old(deliveries)[k].(
             state := RetryWait, nextAttempt := retryAt, progress := None, lastError := Some(First4096(message)))
    {
      ok := k in deliveries && deliveries[k].state.Delivering?;
      if ok {
        deliveries := deliveries[k := deliveries[k].(
          state := RetryWait, nextAttempt := retryAt, lastError := Some(Truncate(message)), progress := None)];
      }
    }

    method MarkPackageDeliveryProgress(k: DeliveryKey, snapshot: Snapshot) returns (ok: bool)
      modifies this
      ensures ok <==> old(InDelivery(Contents(), k))
      ensures Contents() == MarkProgress(old(Contents()), k, snapshot)
      ensures ok ==>
        && deliveries == old(deliveries)[k := deliveries[k]]
        && deliveries[k] == old(deliveries)[k].(progress := Some(snapshot))
    {
      ok := k in deliveries && deliveries[k].state.Delivering?;
      if ok {
        deliveries := deliveries[k := deliveries[k].(progress := Some(snapshot))];
      }
    }

    // ---------- Package purge ----------

    method NextPackagePurge(now: int) returns (next: Option<PackageId>)
      ensures next.None? ==> DuePurges(Contents(), now) == {}
      ensures next.Some? ==> IsFirst(DuePurges(Contents(), now), PurgeRank(Contents()), next.value)
      ensures next.Some? ==> forall q :: q in DuePurges(Contents(), now) ==>
        packages[next.value].nextPurgeAt.value <= packages[q].nextPurgeAt.value
    {
      var due := DuePurges(Contents(), now);
      if due == {} {
        return None;
      }
      var p := SelectFirst(due, PurgeRank(Contents()));
      next := Some(p);
    }

    method MarkPackagePurged(p: PackageId, now: int) returns (ok: bool)
      modifies this
      ensures ok <==> old(Unpurged(Contents(), p))
      ensures Contents() == MarkPurged(old(Contents()), p, now)
      ensures ok ==> packages == old(packages)[p := packages[p]] && !PurgeDue(Contents(), p, now)
      ensures ok ==>
        packages[p] == old(packages)[p].(purgedAt := Some(now), nextPurgeAt := None, purgeError := None)
    {
      ok := p in packages && packages[p].state.Sealed? && packages[p].purgedAt.None?;
      if ok {
        packages := packages[p := packages[p].(purgedAt := Some(now), nextPurgeAt := None, purgeError := None)];
      }
    }

    method MarkPackagePurgeRetry(p: PackageId, message: string, retryAt: int) returns (ok: bool)
      modifies this
      ensures ok <==> old(Unpurged(Contents(), p))
      ensures Contents() == MarkPurgeRetry(old(Contents()), p, message, retryAt)
      ensures ok ==>
        && packages == old(packages)[p := packages[p]] && packages[p].purgedAt.None?
        && packages[p] == old(packages)[p].(nextPurgeAt := Some(retryAt), purgeError := Some(message))
    {
      ok := p in packages && packages[p].state.Sealed? && packages[p].purgedAt.None?;
      if ok {
        packages := packages[p := packages[p].(nextPurgeAt := Some(retryAt), purgeError := Some(message))];
      }
    }
  }

  /** The first n member rows meet no existing row. */
  ghost predicate RowsFree(t: Tables, p: PackageId, n: nat) {
    n <= |p.members| && forall j :: 0 <= j < n ==> !RowConflicts(t, p, j)
  }

  /** What the member loop finds at turn i. */
  lemma NextRow(t: Tables, p: PackageId, i: nat)
    requires i < |p.members| && IdentityOk(p) && AllKnown(t, p) && RowsFree(t, p, i)
    ensures !RowConflicts(t, p, i) ==> RowsFree(t, p, i + 1)
    ensures
      var o := p.members[i].objectId;
      var u := InsertMembers(t, p, i);
      && o in u.artifacts && u.artifacts[o] == t.artifacts[o]
      && (RowConflicts(u, p, i) <==> RowConflicts(t, p, i))
  {
    InsertedRows(t, p, i, p.members[i].objectId);
    assert !AmongFirst(p, i, p.members[i].objectId);
    SameConflict(t, p, i);
  }

  /** Rows the transaction inserted itself never conflict with its next row. */
  lemma SameConflict(t: Tables, p: PackageId, i: nat)
    requires i < |p.members| && IdentityOk(p) && AllKnown(t, p)
    requires forall j :: 0 <= j < i ==> !RowConflicts(t, p, j)
    ensures RowConflicts(InsertMembers(t, p, i), p, i) <==> RowConflicts(t, p, i)
  {
    var u := InsertMembers(t, p, i);
    InsertedRows(t, p, i, p.members[i].objectId);
    assert !AmongFirst(p, i, p.members[i].objectId);
    forall o
      ensures (o in u.members && u.members[o].packageId == p && u.members[o].ordinal == i)
         <==> (o in t.members && t.members[o].packageId == p && t.members[o].ordinal == i)
    {
      InsertedRows(t, p, i, o);
      if AmongFirst(p, i, o) {
        var j :| 0 <= j < i && p.members[j].objectId == o;
        InsertedMember(t, p, i, j);
        assert !RowConflicts(t, p, j);
      }
    }
  }

  lemma SameConflicts(t: Tables, t1: Tables, p: PackageId)
    requires t1.members == t.members
    ensures forall i :: 0 <= i < |p.members| ==> (RowConflicts(t1, p, i) <==> RowConflicts(t, p, i))
  {
  }
}
