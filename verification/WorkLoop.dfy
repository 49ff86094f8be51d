/**
 The packaging goroutine: build cycles, source purge cycles and package purge cycles in the order the
 loop tries them, until nothing is left to do. Files and foreign calls enter as the outcomes that one
 turn of the loop meets.
 */
module WorkLoop {
  import opened Wrappers
  import opened Clock
  import opened Ordering
  import opened Schema
  import opened TablesInvariant
  import opened Reservation
  import opened Store
  import opened LifecycleTheorems
  import opened WorkMeasure

  /** What merging and publishing the package files comes to, short of sealing the row. */
  datatype BuildOutcome = Built(checksum: string, manifestChecksum: string) | NotBuilt(message: string)

  /** Merging one member alone, by the classes of error that the code tells apart: the context is over,
      the file is missing or access is denied, and anything else. `format` is what the code cannot see:
      whether that other error is about the artifact's format rather than about reading it. */
  datatype Verdict = Merges | ContextOver | MissingOrDenied | OtherError(message: string, format: bool)

  /** purgeUpload's outcome. */
  datatype Removal = Removed | NotRemoved(message: string) | Canceled

  datatype Statement = NextBuild | LoadMembers | ReloadMembers | MarkBuild | NextSource | MarkSource | NextPurge | MarkPurge

  /** The outcomes one turn meets; `failing` are the statements that return an error, `lookup` and
      `faultAt` those of a reservation before and in its transaction. */
  datatype Turn = Turn(
    build: BuildOutcome,
    verdicts: string -> Verdict,
    source: Removal,
    unlinkError: Option<string>,
    lookup: Option<Lookup>,
    faultAt: Option<nat>,
    failing: set<Statement>)

  // ---------- Finding invalid members ----------

  datatype Scan = Blamed(invalid: map<string, string>) | Voided | Stopped

  /** The first n members tried in order. */
  function ScanMembers(rows: seq<string>, verdicts: string -> Verdict, n: nat): Scan
    requires n <= |rows|
  {
    if n == 0 then Blamed(map[])
    else
      var before := ScanMembers(rows, verdicts, n - 1);
      if !before.Blamed? then before
      else
        match verdicts(rows[n - 1])
        case Merges => before
        case ContextOver => Stopped
        case MissingOrDenied => Voided
        case OtherError(message, _) => Blamed(before.invalid[rows[n - 1] := message])
  }

  /** The scan ends at the first member whose error is of one of the two first classes; without such a
      member exactly those with any other error are blamed, each with its own message. */
  lemma {:induction false} BlameIsExact(rows: seq<string>, verdicts: string -> Verdict, n: nat)
    requires n <= |rows|
    ensures ScanMembers(rows, verdicts, n).Blamed? <==>
      forall i :: 0 <= i < n ==> verdicts(rows[i]).Merges? || verdicts(rows[i]).OtherError?
    ensures ScanMembers(rows, verdicts, n).Stopped? ==> exists o :: o in rows[..n] && verdicts(o).ContextOver?
    ensures ScanMembers(rows, verdicts, n).Voided? ==> exists o :: o in rows[..n] && verdicts(o).MissingOrDenied?
    ensures ScanMembers(rows, verdicts, n).Blamed? ==>
      forall o :: o in ScanMembers(rows, verdicts, n).invalid <==> (o in rows[..n] && verdicts(o).OtherError?)
    ensures ScanMembers(rows, verdicts, n).Blamed? ==>
      forall o :: o in ScanMembers(rows, verdicts, n).invalid ==>
        verdicts(o).message == ScanMembers(rows, verdicts, n).invalid[o]
  {
    if n > 0 {
      BlameIsExact(rows, verdicts, n - 1);
      assert rows[..n] == rows[..n - 1] + [rows[n - 1]];
    }
  }

  /** Every blamed member is malformed. */
  ghost predicate BlamesOnlyMalformed(scan: Scan, verdicts: string -> Verdict) {
    scan.Blamed? ==> forall o :: o in scan.invalid ==> verdicts(o).OtherError? && verdicts(o).format
  }

  /** A member fails to be read with an error that is none of the two classes. */
  ghost predicate HasTransientError(rows: seq<string>, verdicts: string -> Verdict) {
    exists o :: o in rows && verdicts(o).OtherError? && !verdicts(o).format
  }

  /** Some member's error ends the scan. */
  ghost predicate EndsScan(rows: seq<string>, verdicts: string -> Verdict) {
    exists o :: o in rows && (verdicts(o).ContextOver? || verdicts(o).MissingOrDenied?)
  }

  /** Well-formed members are spared exactly if none of them meets another I/O error, or the scan ends
      early. Otherwise a member that merely could not be read is blamed for good. */
  lemma OnlyMalformedAreBlamedIff(rows: seq<string>, verdicts: string -> Verdict)
    ensures BlamesOnlyMalformed(ScanMembers(rows, verdicts, |rows|), verdicts)
       <==> !HasTransientError(rows, verdicts) || EndsScan(rows, verdicts)
  {
    BlameIsExact(rows, verdicts, |rows|);
    assert rows[..|rows|] == rows;
    if EndsScan(rows, verdicts) {
      var o :| o in rows && (verdicts(o).ContextOver? || verdicts(o).MissingOrDenied?);
      var i :| 0 <= i < |rows| && rows[i] == o;
    } else {
      forall i | 0 <= i < |rows| ensures verdicts(rows[i]).Merges? || verdicts(rows[i]).OtherError? {
        assert rows[i] in rows;
      }
      if HasTransientError(rows, verdicts) {
        var o :| o in rows && verdicts(o).OtherError? && !verdicts(o).format;
        assert o in ScanMembers(rows, verdicts, |rows|).invalid;
      }
    }
  }

  /** One input on which it happens: a single sound artifact behind an I/O error. */
  lemma TransientErrorIsBlamed(o: string)
    ensures ScanMembers([o], _ => OtherError("input/output error", false), 1) == Blamed(map[o := "input/output error"])
  {
    assert ScanMembers([o], _ => OtherError("input/output error", false), 0) == Blamed(map[]);
  }

  // ---------- Projects in turn ----------

  ghost predicate SettledAt(t: Tables, projects: map<string, Packaging>, names: seq<string>, j: nat, now: int)
    requires j < |names|
  {
    names[j] in projects && Settled(t, names[j], projects[names[j]], now)
  }

  ghost predicate FirstSettled(t: Tables, projects: map<string, Packaging>, names: seq<string>, n: nat, now: int) {
    n <= |names| && forall j {:trigger SettledAt(t, projects, names, j, now)} :: 0 <= j < n ==> SettledAt(t, projects, names, j, now)
  }

  /** A call that found nothing to do leaves the projects before it settled. */
  lemma SettlesNext(t: Tables, projects: map<string, Packaging>, names: seq<string>, i: nat,
                    makePlan: PackageId -> Option<Plan>, now: int, fault: bool)
    requires Inv(t) && i < |names| && Ordered(names, NameRank) && names[i] in projects
    requires FirstSettled(t, projects, names, i, now)
    requires ReservePackage(t, names[i], projects[names[i]], makePlan, now, fault).1.Nothing?
    ensures FirstSettled(ReservePackage(t, names[i], projects[names[i]], makePlan, now, fault).0, projects, names, i + 1, now)
  {
    var u := ReservePackage(t, names[i], projects[names[i]], makePlan, now, fault).0;
    NothingSettles(t, names[i], projects[names[i]], makePlan, now, fault);
    forall j | 0 <= j < i + 1 ensures SettledAt(u, projects, names, j, now) {
      if j < i {
        assert SettledAt(t, projects, names, j, now);
        StaysSettled(t, u, names[j], projects[names[j]], now);
      }
    }
  }

  lemma AllNamesSettled(t: Tables, projects: map<string, Packaging>, names: seq<string>, now: int)
    requires FirstSettled(t, projects, names, |names|, now)
    requires forall name :: name in names <==> name in projects
    ensures forall project :: project in projects ==> Settled(t, project, projects[project], now)
  {
    forall project | project in projects ensures Settled(t, project, projects[project], now) {
      assert project in names;
      var j :| 0 <= j < |names| && names[j] == project;
      assert SettledAt(t, projects, names, j, now);
    }
  }

  // ---------- What a build comes to ----------

  ghost function MemberRows(t: Tables, p: PackageId): seq<string> {
    Listing(MembersOf(t, p), MemberRank(t))
  }

  /** The members' verdicts in ordinal order; identity packages are never blamed. */
  ghost function Blame(t: Tables, p: PackageId, verdicts: string -> Verdict): Scan {
    if p.packager.IdentityPackager? then Blamed(map[])
    else ScanMembers(MemberRows(t, p), verdicts, |MemberRows(t, p)|)
  }

  function WhatFailed(turn: Turn): Option<string> {
    if LoadMembers in turn.failing then Some("load members")
    else if turn.build.NotBuilt? then Some(turn.build.message)
    else None
  }

  /** An identity payload keeps its member's checksum. */
  function PayloadChecksum(p: PackageId, build: BuildOutcome): string
    requires build.Built?
  {
    if p.packager.IdentityPackager? && p.members != [] then p.members[0].checksum else build.checksum
  }

  /** Sealed, or the blamed members isolated, or postponed by the backoff of its attempts. */
  ghost function AfterBuild(t: Tables, p: PackageId, turn: Turn, now: int): Tables
    requires IsBuilding(t, p)
  {
    var error := WhatFailed(turn);
    var blame := Blame(t, p, turn.verdicts);
    if error.None? then
      Seal(t, p, Offset(p, |p.members|), PayloadChecksum(p, turn.build), turn.build.manifestChecksum, Unix(now))
    else if blame.Blamed? && blame.invalid.Keys != {} then Isolate(t, p, blame.invalid)
    else MarkBuildRetry(t, p, error.value, Unix(now + Backoff(t.packages[p].buildAttempts)))
  }

  /** What the rows say of a build: sealed with the member's own checksum (identity) or the payload's
      (merge), and the manifest's; or the blamed members keep their errors while the others are free
      again; or the package is due when the backoff of its attempts is over. */
  ghost predicate BuildRecorded(t: Tables, u: Tables, p: PackageId, turn: Turn, now: int) {
    && p in t.packages && p in u.packages
    && var row := u.packages[p];
       if WhatFailed(turn).None? then
         && turn.build.Built? && row.state.Sealed? && row.size == Some(Offset(p, |p.members|))
         && (p.packager.MergePackager? ==> row.checksum == Some(turn.build.checksum))
         && (p.packager.IdentityPackager? ==>
               |MembersOf(t, p)| == 1 && forall o :: o in MembersOf(t, p) ==> row.checksum == Some(t.members[o].checksum))
         && row.manifestChecksum == Some(turn.build.manifestChecksum)
         && row.sealedAt == Some(Unix(now)) && row.buildError.None?
       else
         var blame := Blame(t, p, turn.verdicts);
         if blame.Blamed? && blame.invalid.Keys != {} then
           && row.state.Blocked? && row.memberCount == |blame.invalid|
           && forall o :: o in MembersOf(t, p) ==>
                if o in blame.invalid
                then o in u.artifacts && u.artifacts[o].packagingError == Some(First4096(blame.invalid[o]))
                else IsCandidate(u, p.project, o)
         else
           && row.state.Building? && IsRetrySecond(row.nextBuildAt, now, t.packages[p].buildAttempts)
           && row.buildError == Some(Failure(First4096(WhatFailed(turn).value)))
           && row.buildAttempts == t.packages[p].buildAttempts
  }

  lemma SealRecords(t: Tables, p: PackageId, turn: Turn, now: int)
    requires Inv(t) && IsBuilding(t, p) && WhatFailed(turn).None?
    ensures BuildRecorded(t, AfterBuild(t, p, turn, now), p, turn, now)
  {
    UnblockedMembers(t, p);
    assert PackageOk(t, p);
    if p.packager.IdentityPackager? {
      assert OriginalIds(p) == {p.members[0].objectId};
      assert OwnsAt(t, p, 0) && MemberOk(t, p.members[0].objectId);
    }
  }

  lemma IsolationRecords(t: Tables, p: PackageId, invalid: map<string, string>, o: string)
    requires Inv(t) && IsBuilding(t, p) && invalid.Keys <= MembersOf(t, p) && o in MembersOf(t, p)
    ensures
      var u := Isolate(t, p, invalid);
      if o in invalid then o in u.artifacts && u.artifacts[o].packagingError == Some(First4096(invalid[o]))
      else IsCandidate(u, p.project, o)
  {
    IsolateReturnsGoodMembers(t, p, invalid, o);
    IsolateRows(t, p, invalid);
    assert MemberOk(t, o);
  }

  lemma AfterBuildRecords(t: Tables, p: PackageId, turn: Turn, now: int)
    requires Inv(t) && IsBuilding(t, p)
    ensures BuildRecorded(t, AfterBuild(t, p, turn, now), p, turn, now)
  {
    var blame := Blame(t, p, turn.verdicts);
    if WhatFailed(turn).None? {
      SealRecords(t, p, turn, now);
    } else if blame.Blamed? && blame.invalid.Keys != {} {
      BlamedAreMembers(t, p, turn.verdicts);
      forall o | o in MembersOf(t, p)
        ensures
          var u := Isolate(t, p, blame.invalid);
          if o in blame.invalid then o in u.artifacts && u.artifacts[o].packagingError == Some(First4096(blame.invalid[o]))
          else IsCandidate(u, p.project, o)
      {
        IsolationRecords(t, p, blame.invalid, o);
      }
    } else {
      BackoffIsRetrySecond(now, t.packages[p].buildAttempts);
    }
  }

  lemma BlamedAreMembers(t: Tables, p: PackageId, verdicts: string -> Verdict)
    requires Blame(t, p, verdicts).Blamed?
    ensures Blame(t, p, verdicts).invalid.Keys <= MembersOf(t, p)
  {
    if p.packager.MergePackager? {
      var rows := MemberRows(t, p);
      ListingHolds(MembersOf(t, p), MemberRank(t));
      BlameIsExact(rows, verdicts, |rows|);
      assert rows[..|rows|] == rows;
    }
  }

  /** The build cannot be recorded: its rows cannot be loaded again, the context is over, or marking fails. */
  ghost predicate BuildStuck(t: Tables, p: PackageId, turn: Turn) {
    && WhatFailed(turn).Some?
    && (|| MarkBuild in turn.failing
        || (p.packager.MergePackager? && (ReloadMembers in turn.failing || Blame(t, p, turn.verdicts).Stopped?)))
  }

  /** Nothing that may end the loop happens in this turn. */
  ghost predicate Smooth(turn: Turn) {
    && turn.failing == {} && turn.lookup.None? && turn.faultAt.None? && !turn.source.Canceled?
    && forall o :: !turn.verdicts(o).ContextOver?
  }

  ghost predicate PlansResolve(projects: map<string, Packaging>, makePlan: string -> PackageId -> Option<Plan>) {
    forall project, p :: project in projects ==> makePlan(project)(p).Some?
  }

  lemma SmoothBuilds(t: Tables, p: PackageId, turn: Turn)
    requires Smooth(turn)
    ensures !BuildStuck(t, p, turn)
  {
    if p.packager.MergePackager? {
      BlameIsExact(MemberRows(t, p), turn.verdicts, |MemberRows(t, p)|);
    }
  }

  function AfterSource(t: Tables, o: string, source: Removal, now: int): Tables {
    if source.NotRemoved? then MarkSourcePurgeRetry(t, o, source.message, UnixCeil(now + MINUTE))
    else MarkSourcePurged(t, o, Unix(now))
  }

  function AfterUnlink(t: Tables, p: PackageId, error: Option<string>, now: int): Tables {
    if error.Some? then MarkPurgeRetry(t, p, error.value, UnixCeil(now + MINUTE)) else MarkPurged(t, p, Unix(now))
  }

  /** A purged source, or one that is due again in the first whole second a minute from now. */
  ghost predicate SourceRecorded(t: Tables, u: Tables, o: string, source: Removal, now: int) {
    && o in t.artifacts && o in u.artifacts && u == t.(artifacts := t.artifacts[o := u.artifacts[o]])
    && var row := u.artifacts[o];
       && row.packageId == t.artifacts[o].packageId
       && if source.NotRemoved?
          then row.sourcePurgedAt.None? && IsFirstSecond(row.nextSourcePurge, now + MINUTE)
               && row.sourcePurgeError == Some(First4096(source.message))
          else row.sourcePurgedAt == Some(Unix(now)) && row.sourcePurgeError.None?
  }

  ghost predicate UnlinkRecorded(t: Tables, u: Tables, p: PackageId, error: Option<string>, now: int) {
    && p in t.packages && p in u.packages && u == t.(packages := t.packages[p := u.packages[p]])
    && var row := u.packages[p];
       && row.state.Sealed? && row.purgeAfter == t.packages[p].purgeAfter
       && if error.Some?
          then row.purgedAt.None? && row.purgeError == error
               && row.nextPurgeAt.Some? && IsFirstSecond(row.nextPurgeAt.value, now + MINUTE)
          else row.purgedAt == Some(Unix(now)) && row.purgeError.None?
  }

  /** The calls for the projects before this one found nothing to do, and this one reserved p. */
  ghost predicate ReservesAt(t: Tables, v: Tables, p: PackageId, projects: map<string, Packaging>,
                             makePlan: string -> PackageId -> Option<Plan>, now: int, i: nat)
  {
    var names := Listing(projects.Keys, NameRank);
    && i < |names| && names[i] in projects
    && exists draining, fault ::
         var u := t.(draining := draining);
         && FirstSettled(u, projects, names, i, now)
         && ReservePackage(u, names[i], projects[names[i]], makePlan(names[i]), now, fault) == (v, Reserved(p))
  }

  /** The first due package is started and built, or gets stuck right after it was started. */
  ghost predicate BuildsDue(t: Tables, u: Tables, turn: Turn, now: int, p: PackageId, failed: bool) {
    && IsFirst(DueBuilds(t, Unix(now)), BuildRank(t), p)
    && (failed <==> BuildStuck(StartBuild(t, p), p, turn))
    && u == (if failed then StartBuild(t, p) else AfterBuild(StartBuild(t, p), p, turn, now))
    && (!failed ==> BuildRecorded(StartBuild(t, p), u, p, turn, now))
  }

  /** Without a due package the first reservation v is built, or gets stuck. */
  ghost predicate ReservedAndBuilt(t: Tables, v: Tables, u: Tables, p: PackageId, projects: map<string, Packaging>,
                                   makePlan: string -> PackageId -> Option<Plan>, now: int, turn: Turn, failed: bool)
  {
    && DueBuilds(t, Unix(now)) == {}
    && (exists i :: ReservesAt(t, v, p, projects, makePlan, now, i)) && IsBuilding(v, p)
    && (failed <==> BuildStuck(v, p, turn))
    && u == (if failed then v else AfterBuild(v, p, turn, now))
    && (!failed ==> BuildRecorded(v, u, p, turn, now))
  }

  ghost predicate BuildWorked(t: Tables, u: Tables, projects: map<string, Packaging>,
                              makePlan: string -> PackageId -> Option<Plan>, now: int, turn: Turn)
  {
    || (exists p :: BuildsDue(t, u, turn, now, p, false))
    || (exists v, p :: ReservedAndBuilt(t, v, u, p, projects, makePlan, now, turn, false))
  }

  ghost predicate NoBuild(t: Tables, u: Tables, projects: map<string, Packaging>, now: int) {
    && u == t.(draining := u.draining)
    && DueBuilds(u, Unix(now)) == {}
    && forall project :: project in projects ==> Settled(u, project, projects[project], now)
  }

  /** The ways in which a build cycle may fail, and what each leaves behind. */
  ghost predicate BuildFailed(t: Tables, u: Tables, projects: map<string, Packaging>,
                              makePlan: string -> PackageId -> Option<Plan>, now: int, turn: Turn)
  {
    || (NextBuild in turn.failing && u == t)
    || (exists p :: BuildsDue(t, u, turn, now, p, true))
    || (exists v, p :: ReservedAndBuilt(t, v, u, p, projects, makePlan, now, turn, true))
    || (u == t.(draining := u.draining) && (turn.lookup.Some? || turn.faultAt.Some? || !PlansResolve(projects, makePlan)))
  }

  lemma SmoothTurns(t: Tables, u: Tables, projects: map<string, Packaging>,
                    makePlan: string -> PackageId -> Option<Plan>, now: int, turn: Turn)
    requires BuildFailed(t, u, projects, makePlan, now, turn)
    ensures !Smooth(turn) || !PlansResolve(projects, makePlan)
  {
    if Smooth(turn) {
      if p :| BuildsDue(t, u, turn, now, p, true) {
        SmoothBuilds(StartBuild(t, p), p, turn);
      } else if v, p :| ReservedAndBuilt(t, v, u, p, projects, makePlan, now, turn, true) {
        SmoothBuilds(v, p, turn);
      }
    }
  }

  ghost predicate PurgesSource(t: Tables, u: Tables, turn: Turn, now: int, o: string) {
    && IsFirst(DueSources(t, Unix(now)), SourceRank(t), o)
    && u == AfterSource(t, o, turn.source, now) && SourceRecorded(t, u, o, turn.source, now)
  }

  ghost predicate PurgesPackage(t: Tables, u: Tables, turn: Turn, now: int, p: PackageId) {
    && IsFirst(DuePurges(t, Unix(now)), PurgeRank(t), p)
    && u == AfterUnlink(t, p, turn.unlinkError, now) && UnlinkRecorded(t, u, p, turn.unlinkError, now)
  }

  /** The first due source, or without one the first due package. */
  ghost predicate PurgeWorked(t: Tables, u: Tables, turn: Turn, now: int) {
    || (exists o :: PurgesSource(t, u, turn, now, o))
    || (DueSources(t, Unix(now)) == {} && exists p :: PurgesPackage(t, u, turn, now, p))
  }

  /** What a turn that worked did: a build, or without one a purge. */
  ghost predicate TurnWorked(t: Tables, u: Tables, projects: map<string, Packaging>,
                             makePlan: string -> PackageId -> Option<Plan>, now: int, turn: Turn)
  {
    || BuildWorked(t, u, projects, makePlan, now, turn)
    || (exists v :: NoBuild(t, v, projects, now) && PurgeWorked(v, u, turn, now))
  }

  ghost predicate WorkedAt(trace: seq<Tables>, i: nat, projects: map<string, Packaging>,
                           makePlan: string -> PackageId -> Option<Plan>, now: int, turns: nat -> Turn)
    requires i + 1 < |trace|
  {
    TurnWorked(trace[i], trace[i + 1], projects, makePlan, now, turns(i))
  }

  /** Between any two neighbours of the trace one turn did its work. */
  ghost predicate AllWorked(trace: seq<Tables>, projects: map<string, Packaging>,
                            makePlan: string -> PackageId -> Option<Plan>, now: int, turns: nat -> Turn)
  {
    forall i: nat {:trigger WorkedAt(trace, i, projects, makePlan, now, turns)} :: i + 1 < |trace| ==>
      WorkedAt(trace, i, projects, makePlan, now, turns)
  }

  lemma TraceNext(trace: seq<Tables>, u: Tables, projects: map<string, Packaging>,
                  makePlan: string -> PackageId -> Option<Plan>, now: int, turns: nat -> Turn)
    requires trace != [] && AllWorked(trace, projects, makePlan, now, turns)
    requires TurnWorked(trace[|trace| - 1], u, projects, makePlan, now, turns(|trace| - 1))
    ensures AllWorked(trace + [u], projects, makePlan, now, turns)
  {
    forall i: nat | i + 1 < |trace + [u]| ensures WorkedAt(trace + [u], i, projects, makePlan, now, turns) {
      if i + 1 < |trace| {
        assert WorkedAt(trace, i, projects, makePlan, now, turns);
      }
    }
  }

  lemma {:induction false} ScanGoesOn(rows: seq<string>, verdicts: string -> Verdict, n: nat, m: nat)
    requires n <= m <= |rows|
    ensures !ScanMembers(rows, verdicts, n).Blamed? ==> ScanMembers(rows, verdicts, m) == ScanMembers(rows, verdicts, n)
  {
    if n < m {
      ScanGoesOn(rows, verdicts, n, m - 1);
    }
  }

  /** The package is not due any more, or fewer artifacts are without an error. */
  ghost predicate BuildShrinks(t: Tables, u: Tables, p: PackageId, now: int) {
    || |Sound(u)| < |Sound(t)|
    || (&& Sound(u) == Sound(t) && Waiting(u) == Waiting(t)
        && DueBuilds(u, Unix(now)) == DueBuilds(t, Unix(now)) - {p})
  }

  class DeliveryWorker {
    const store: DeliveryStore
    const projects: map<string, Packaging>
    const makePlan: string -> PackageId -> Option<Plan>
    const now: int

    constructor (store: DeliveryStore, projects: map<string, Packaging>,
                 makePlan: string -> PackageId -> Option<Plan>, now: int)
      ensures this.store == store && this.projects == projects && this.makePlan == makePlan && this.now == now
    {
      this.store, this.projects, this.makePlan, this.now := store, projects, makePlan, now;
    }

    /** findInvalidPackageMembers: None when the scan was interrupted. One unreadable source voids the
        whole scan. */
    method FindInvalidPackageMembers(p: PackageId, turn: Turn) returns (invalid: Option<map<string, string>>)
      ensures p.packager.MergePackager? && ReloadMembers in turn.failing ==> invalid.None?
      ensures p.packager.IdentityPackager? || ReloadMembers !in turn.failing ==>
        match Blame(store.Contents(), p, turn.verdicts)
        case Blamed(found) => invalid == Some(found)
        case Voided => invalid == Some(map[])
        case Stopped => invalid.None?
      ensures invalid.Some? ==> invalid.value.Keys <= MembersOf(store.Contents(), p)
    {
      if p.packager.IdentityPackager? {
        return Some(map[]);
      }
      if ReloadMembers in turn.failing {
        return None;
      }
      var rows := store.PackageMembers(p);
      var scan := TryMembers(rows, turn.verdicts);
      BlameIsExact(rows, turn.verdicts, |rows|);
      assert rows[..|rows|] == rows;
      match scan {
        case Blamed(found) => invalid := Some(found);
        case Voided => invalid := Some(map[]);
        case Stopped => invalid := None;
      }
    }

    /** Its loop, which ends at the first member that cannot be judged. */
    method TryMembers(rows: seq<string>, verdicts: string -> Verdict) returns (scan: Scan)
      ensures scan == ScanMembers(rows, verdicts, |rows|)
    {
      var found: map<string, string> := map[];
      for i := 0 to |rows|
        invariant ScanMembers(rows, verdicts, i) == Blamed(found)
      {
        ScanGoesOn(rows, verdicts, i + 1, |rows|);
        match verdicts(rows[i]) {
          case Merges =>
          case ContextOver =>
            return Stopped;
          case MissingOrDenied =>
            return Voided;
          case OtherError(message, _) =>
            found := found[rows[i] := message];
        }
      }
      scan := Blamed(found);
    }

    /** materializePackage: an error, or the row sealed with the size of its original members. The
        count check never fails. */
    method MaterializePackage(p: PackageId, turn: Turn) returns (error: Option<string>)
      requires Inv(store.Contents()) && IsBuilding(store.Contents(), p)
      modifies store
      ensures error == WhatFailed(turn)
      ensures store.Contents() ==
        if error.Some? then old(store.Contents())
        else Seal(old(store.Contents()), p, Offset(p, |p.members|), PayloadChecksum(p, turn.build),
                  turn.build.manifestChecksum, Unix(now))
      ensures error.None? ==> BuildRecorded(old(store.Contents()), store.Contents(), p, turn, now)
    {
      if WhatFailed(turn).None? {
        SealRecords(store.Contents(), p, turn, now);
      }
      if LoadMembers in turn.failing {
        return Some("load members");
      }
      var rows := store.PackageMembers(p);
      LoadedMembersAreOriginal(store.Contents(), p, rows);
      if |rows| != store.packages[p].memberCount {
        assert false;
      }
      match turn.build {
        case NotBuilt(message) =>
          error := Some(message);
        case Built(checksum, manifestChecksum) =>
          assert PackageOk(store.Contents(), p) && MemberOk(store.Contents(), rows[0]) && OwnsAt(store.Contents(), p, 0);
          var payload := if p.packager.IdentityPackager? then store.members[rows[0]].checksum else checksum;
          var ok := store.SealPackage(p, Offset(p, |p.members|), payload, manifestChecksum, Unix(now));
          error := None;
      }
    }

    /** The second half of runPackageBuildCycle, for the package that is to be built now. */
    method BuildPackage(p: PackageId, turn: Turn) returns (failed: bool)
      requires Inv(store.Contents()) && IsBuilding(store.Contents(), p)
      modifies store
      ensures Inv(store.Contents())
      ensures store.Contents() == if failed then old(store.Contents()) else AfterBuild(old(store.Contents()), p, turn, now)
      ensures failed <==> BuildStuck(old(store.Contents()), p, turn)
      ensures !failed ==> BuildShrinks(old(store.Contents()), store.Contents(), p, now)
      ensures !failed ==> BuildRecorded(old(store.Contents()), store.Contents(), p, turn, now)
    {
      ghost var t := store.Contents();
      AfterBuildRecords(t, p, turn, now);
      var error := MaterializePackage(p, turn);
      if error.None? {
        SealKeeps(t, p, Offset(p, |p.members|), PayloadChecksum(p, turn.build), turn.build.manifestChecksum, Unix(now));
        BuildEnds(t, store.Contents(), p, now);
        return false;
      }
      var invalid := FindInvalidPackageMembers(p, turn);
      if invalid.None? {
        return true;
      }
      if invalid.value.Keys != {} {
        var ok := store.IsolateInvalidMembers(p, invalid.value, MarkBuild in turn.failing);
        IsolateKeeps(t, p, invalid.value);
        IsolationBlames(t, p, invalid.value);
        return !ok;
      }
      if MarkBuild in turn.failing {
        return true;
      }
      var delay := RetryDelay(store.packages[p].buildAttempts);
      RetryIsLater(now, store.packages[p].buildAttempts);
      MarkBuildRetryKeeps(t, p, error.value, Unix(now + delay));
      var ok := store.MarkPackageBuildRetry(p, error.value, Unix(now + delay));
      BuildEnds(t, store.Contents(), p, now);
      failed := false;
    }

    /** The loop over the configured projects, in name order, up to the first reservation. */
    method ReserveSomewhere(turn: Turn) returns (result: Result)
      requires Inv(store.Contents())
      modifies store
      ensures Inv(store.Contents())
      ensures result.Nothing? ==>
        && store.Contents() == old(store.Contents()).(draining := store.draining)
        && forall project :: project in projects ==> Settled(store.Contents(), project, projects[project], now)
      ensures result.Reserved? ==>
        && IsBuilding(store.Contents(), result.packageId)
        && Sound(store.Contents()) == Sound(old(store.Contents()))
        && |Waiting(store.Contents())| < |Waiting(old(store.Contents()))|
      ensures result.Reserved? ==>
        exists i :: ReservesAt(old(store.Contents()), store.Contents(), result.packageId, projects, makePlan, now, i)
      ensures result.Failed? ==>
        && store.Contents() == old(store.Contents()).(draining := store.draining)
        && (turn.lookup.Some? || turn.faultAt.Some? || !PlansResolve(projects, makePlan))
    {
      ghost var t := store.Contents();
      var names := SelectAll(projects.Keys, NameRank);
      ListingHolds(projects.Keys, NameRank);
      result := Nothing;
      for i := 0 to |names|
        invariant Inv(store.Contents()) && store.Contents() == t.(draining := store.draining)
        invariant FirstSettled(store.Contents(), projects, names, i, now)
        invariant result.Nothing?
      {
        assert names[i] in projects;
        SameWork(t, store.Contents(), now);
        ghost var before := store.Contents();
        ghost var fault;
        result, fault := ReserveFor(names, i, turn);
        if !result.Nothing? {
          assert before == t.(draining := before.draining);
          assert result.Reserved? ==>
            ReservesAt(t, store.Contents(), result.packageId, projects, makePlan, now, i);
          return;
        }
      }
      AllNamesSettled(store.Contents(), projects, names, now);
    }

    /** One call of reservePackage in that loop. */
    method ReserveFor(names: seq<string>, i: nat, turn: Turn) returns (result: Result, ghost fault: bool)
      requires Inv(store.Contents()) && i < |names| && Ordered(names, NameRank) && names[i] in projects
      requires FirstSettled(store.Contents(), projects, names, i, now)
      modifies store
      ensures Inv(store.Contents())
      ensures result.Nothing? ==>
        && store.Contents() == old(store.Contents()).(draining := store.draining)
        && FirstSettled(store.Contents(), projects, names, i + 1, now)
      ensures result.Reserved? ==>
        && IsBuilding(store.Contents(), result.packageId)
        && Sound(store.Contents()) == Sound(old(store.Contents()))
        && |Waiting(store.Contents())| < |Waiting(old(store.Contents()))|
      ensures result.Failed? ==>
        && store.Contents() == old(store.Contents()).(draining := store.draining)
        && (turn.lookup.Some? || turn.faultAt.Some? || !PlansResolve(projects, makePlan))
      ensures !result.Failed? ==>
        (store.Contents(), result)
          == ReservePackage(old(store.Contents()), names[i], projects[names[i]], makePlan(names[i]), now, fault)
    {
      ghost var before := store.Contents();
      ghost var struck;
      result, struck, fault :=
        store.ReservePackage(names[i], projects[names[i]], makePlan(names[i]), now, turn.lookup, turn.faultAt);
      if result.Reserved? {
        CallTakes(before, names[i], projects[names[i]], makePlan(names[i]), now, fault);
      }
      ReservePackageKeeps(before, names[i], projects[names[i]], makePlan(names[i]), now, fault);
      if result.Nothing? {
        SettlesNext(before, projects, names, i, makePlan(names[i]), now, fault);
      }
    }

    /** runPackageBuildCycle: the first due package, or else the first reservation there is. */
    method RunPackageBuildCycle(turn: Turn) returns (worked: bool, failed: bool)
      requires Inv(store.Contents())
      modifies store
      ensures Inv(store.Contents())
      ensures !failed && worked ==> BuildWorked(old(store.Contents()), store.Contents(), projects, makePlan, now, turn)
      ensures !failed && worked ==> Less(Work(store.Contents(), now), Work(old(store.Contents()), now))
      ensures !failed && !worked ==> NoBuild(old(store.Contents()), store.Contents(), projects, now)
      ensures failed ==> BuildFailed(old(store.Contents()), store.Contents(), projects, makePlan, now, turn)
    {
      ghost var t := store.Contents();
      if NextBuild in turn.failing {
        return false, true;
      }
      var next := store.NextBuildingPackage(Unix(now));
      if next.Some? {
        worked := true;
        failed := BuildFirst(t, next.value, turn);
        return;
      }
      var result := ReserveSomewhere(turn);
      match result {
        case Failed =>
          return false, true;
        case Nothing =>
          return false, false;
        case Reserved(p) =>
          ghost var v := store.Contents();
          failed := BuildPackage(p, turn);
          assert ReservedAndBuilt(t, v, store.Contents(), p, projects, makePlan, now, turn, failed);
          return true, failed;
      }
    }

    /** The rest of the cycle for a package that was due at t. */
    method BuildFirst(ghost t: Tables, p: PackageId, turn: Turn) returns (failed: bool)
      requires Inv(t) && IsFirst(DueBuilds(t, Unix(now)), BuildRank(t), p) && store.Contents() == StartBuild(t, p)
      modifies store
      ensures Inv(store.Contents())
      ensures BuildsDue(t, store.Contents(), turn, now, p, failed)
      ensures !failed ==> Less(Work(store.Contents(), now), Work(t, now))
    {
      StartBuildKeeps(t, p);
      StartBuildSame(t, p, now);
      failed := BuildPackage(p, turn);
      Fewer(DueBuilds(t, Unix(now)) - {p}, DueBuilds(t, Unix(now)), p);
    }

    /** runPackagedSourcePurgeCycle. */
    method RunPackagedSourcePurgeCycle(turn: Turn) returns (worked: bool, failed: bool)
      requires Inv(store.Contents())
      modifies store
      ensures Inv(store.Contents())
      ensures !failed && worked ==> Less(Work(store.Contents(), now), Work(old(store.Contents()), now))
      ensures !failed && worked ==> exists o :: PurgesSource(old(store.Contents()), store.Contents(), turn, now, o)
      ensures failed || !worked ==> store.Contents() == old(store.Contents())
      ensures !failed && !worked ==> DueSources(store.Contents(), Unix(now)) == {}
      ensures failed <==>
        || NextSource in turn.failing
        || (DueSources(old(store.Contents()), Unix(now)) != {} && (turn.source.Canceled? || MarkSource in turn.failing))
    {
      ghost var t := store.Contents();
      if NextSource in turn.failing {
        return false, true;
      }
      var next := store.NextSourceToPurge(Unix(now));
      if next.None? {
        return false, false;
      }
      if turn.source.Canceled? || MarkSource in turn.failing {
        return true, true;
      }
      var ok;
      if turn.source.NotRemoved? {
        MarkSourcePurgeRetryKeeps(t, next.value, turn.source.message, UnixCeil(now + MINUTE));
        RetryIsLater(now, 0);
        ok := store.MarkSourcePurgeRetry(next.value, turn.source.message, UnixCeil(now + MINUTE));
      } else {
        MarkSourcePurgedKeeps(t, next.value, Unix(now));
        ok := store.MarkSourcePurged(next.value, Unix(now));
      }
      UnixCeilIsFirstSecond(now + MINUTE);
      SourceEnds(t, store.Contents(), next.value, now);
      assert PurgesSource(t, store.Contents(), turn, now, next.value);
      return true, false;
    }

    /** runPackagePurgeCycle. */
    method RunPackagePurgeCycle(turn: Turn) returns (worked: bool, failed: bool)
      requires Inv(store.Contents())
      modifies store
      ensures Inv(store.Contents())
      ensures !failed && worked ==> Less(Work(store.Contents(), now), Work(old(store.Contents()), now))
      ensures !failed && worked ==> exists p :: PurgesPackage(old(store.Contents()), store.Contents(), turn, now, p)
      ensures failed || !worked ==> store.Contents() == old(store.Contents())
      ensures !failed && !worked ==> DuePurges(store.Contents(), Unix(now)) == {}
      ensures failed <==>
        || NextPurge in turn.failing
        || (DuePurges(old(store.Contents()), Unix(now)) != {} && MarkPurge in turn.failing)
    {
      ghost var t := store.Contents();
      if NextPurge in turn.failing {
        return false, true;
      }
      var next := store.NextPackagePurge(Unix(now));
      if next.None? {
        return false, false;
      }
      if MarkPurge in turn.failing {
        return true, true;
      }
      var ok;
      if turn.unlinkError.Some? {
        assert ColumnsOk(t, next.value);
        RetryIsLater(now, 0);
        MarkPurgeRetryKeeps(t, next.value, turn.unlinkError.value, UnixCeil(now + MINUTE));
        ok := store.MarkPackagePurgeRetry(next.value, turn.unlinkError.value, UnixCeil(now + MINUTE));
      } else {
        MarkPurgedKeeps(t, next.value, Unix(now));
        ok := store.MarkPackagePurged(next.value, Unix(now));
      }
      UnixCeilIsFirstSecond(now + MINUTE);
      PurgeEnds(t, store.Contents(), next.value, now);
      assert PurgesPackage(t, store.Contents(), turn, now, next.value);
      return true, false;
    }

    /** One pass through the three cycles. */
    method RunTurn(turn: Turn) returns (worked: bool, failed: bool)
      requires Inv(store.Contents())
      modifies store
      ensures Inv(store.Contents())
      ensures !failed && worked ==> TurnWorked(old(store.Contents()), store.Contents(), projects, makePlan, now, turn)
      ensures !failed && worked ==> Less(Work(store.Contents(), now), Work(old(store.Contents()), now))
      ensures !failed && !worked ==>
        Idle(store.Contents(), projects, now) && store.Contents() == old(store.Contents()).(draining := store.draining)
      ensures Smooth(turn) && PlansResolve(projects, makePlan) ==> !failed
    {
      ghost var t := store.Contents();
      worked, failed := RunPackageBuildCycle(turn);
      if failed {
        SmoothTurns(t, store.Contents(), projects, makePlan, now, turn);
        return;
      }
      if worked {
        return;
      }
      ghost var v := store.Contents();
      SameWork(t, v, now);
      worked, failed := RunPackagedSourcePurgeCycle(turn);
      if failed || worked {
        assert worked && !failed ==> PurgeWorked(v, store.Contents(), turn, now);
        return;
      }
      worked, failed := RunPackagePurgeCycle(turn);
      assert worked && !failed ==> PurgeWorked(v, store.Contents(), turn, now);
    }

    /** runPackagingScheduler up to its poll timer. With the clock frozen and no other writer it ends
        for all outcomes it may meet; unless something in its last turn made it fail, everything is done.
        `trace` holds the tables before each turn. */
    method RunPackagingScheduler(turns: nat -> Turn) returns (failed: bool, ghost trace: seq<Tables>)
      requires Inv(store.Contents())
      modifies store
      ensures Inv(store.Contents())
      ensures trace != [] && trace[0] == old(store.Contents())
      ensures AllWorked(trace, projects, makePlan, now, turns)
      ensures !failed ==>
        && Idle(store.Contents(), projects, now)
        && store.Contents() == trace[|trace| - 1].(draining := store.draining)
      ensures failed ==> !Smooth(turns(|trace| - 1)) || !PlansResolve(projects, makePlan)
      ensures (forall k: nat :: Smooth(turns(k))) && PlansResolve(projects, makePlan) ==>
        !failed && Idle(store.Contents(), projects, now)
    {
      var turn := 0;
      trace := [store.Contents()];
      while true
        invariant Inv(store.Contents())
        invariant |trace| == turn + 1 && trace[0] == old(store.Contents()) && trace[turn] == store.Contents()
        invariant AllWorked(trace, projects, makePlan, now, turns)
        decreases Work(store.Contents(), now).sound, Work(store.Contents(), now).waiting,
                  Work(store.Contents(), now).builds, Work(store.Contents(), now).sources,
                  Work(store.Contents(), now).purges
      {
        var worked;
        worked, failed := RunTurn(turns(turn));
        if failed || !worked {
          return;
        }
        TraceNext(trace, store.Contents(), projects, makePlan, now, turns);
        trace := trace + [store.Contents()];
        turn := turn + 1;
      }
    }
  }
}
