/**
 Why the packaging loop reaches idle: what every cycle that worked takes away. With the clock frozen,
 five counts fall lexicographically: artifacts without a packaging error, unreserved candidates, due
 building packages, due unpurged sources and due package purges.
 */
module WorkMeasure {
  import opened Wrappers
  import opened Clock
  import opened Schema
  import opened TablesInvariant
  import opened Ordering
  import opened Reservation
  import opened Store

  datatype Measure = Measure(sound: nat, waiting: nat, builds: nat, sources: nat, purges: nat)

  predicate Less(a: Measure, b: Measure) {
    || a.sound < b.sound
    || (a.sound == b.sound && a.waiting < b.waiting)
    || (a.sound == b.sound && a.waiting == b.waiting && a.builds < b.builds)
    || (a.sound == b.sound && a.waiting == b.waiting && a.builds == b.builds && a.sources < b.sources)
    || (a.sound == b.sound && a.waiting == b.waiting && a.builds == b.builds && a.sources == b.sources
        && a.purges < b.purges)
  }

  function Sound(t: Tables): set<string> {
    set o | o in t.artifacts && t.artifacts[o].packagingError.None?
  }

  function Waiting(t: Tables): set<string> {
    set o | o in t.artifacts && t.artifacts[o].packageId.None? && t.artifacts[o].packagingError.None?
  }

  function Work(t: Tables, now: int): Measure {
    Measure(|Sound(t)|, |Waiting(t)|, |DueBuilds(t, Unix(now))|, |DueSources(t, Unix(now))|, |DuePurges(t, Unix(now))|)
  }

  lemma Fewer<T>(a: set<T>, b: set<T>, x: T)
    requires a <= b && x in b && x !in a
    ensures |a| < |b|
  {
    assert a <= b - {x};
    FewerOrSame(a, b - {x});
  }

  lemma {:induction false} FewerOrSame<T>(a: set<T>, b: set<T>)
    requires a <= b
    ensures |a| <= |b|
    decreases |a|
  {
    if a != {} {
      var x :| x in a;
      FewerOrSame(a - {x}, b - {x});
    }
  }

  /** A retry is due after the present second. */
  lemma RetryIsLater(now: int, attempt: int)
    ensures Unix(now + Backoff(attempt)) > Unix(now)
    ensures UnixCeil(now + MINUTE) > Unix(now)
  {
    UnixAddSeconds(now, 60 * BackoffMinutes(attempt));
    UnixAddSeconds(now, 60);
    UnixMonotone(now + MINUTE, now + MINUTE);
  }

  // ---------- Building ----------

  lemma StartBuildSame(t: Tables, p: PackageId, now: int)
    requires BuildDue(t, p, Unix(now))
    ensures
      var u := StartBuild(t, p);
      && Sound(u) == Sound(t) && Waiting(u) == Waiting(t)
      && DueBuilds(u, Unix(now)) == DueBuilds(t, Unix(now)) && BuildDue(u, p, Unix(now))
  {
  }

  /** The package left the building state or got a later turn: it is not due any more. */
  lemma BuildEnds(t: Tables, u: Tables, p: PackageId, now: int)
    requires p in t.packages && p in u.packages && u == t.(packages := t.packages[p := u.packages[p]])
    requires u.packages[p].state.Building? ==> u.packages[p].nextBuildAt > Unix(now)
    ensures Sound(u) == Sound(t) && Waiting(u) == Waiting(t)
    ensures DueBuilds(u, Unix(now)) == DueBuilds(t, Unix(now)) - {p}
  {
  }

  /** Isolation marks at least one artifact for good. */
  lemma IsolationBlames(t: Tables, p: PackageId, invalid: map<string, string>)
    requires Inv(t) && IsBuilding(t, p)
    requires invalid.Keys != {} && invalid.Keys <= MembersOf(t, p)
    ensures |Sound(Isolate(t, p, invalid))| < |Sound(t)|
  {
    IsolateRows(t, p, invalid);
    var u := Isolate(t, p, invalid);
    forall o | o in Sound(u) ensures o in Sound(t) {
      assert ArtifactOk(t, o);
    }
    var bad :| bad in invalid;
    assert MemberOk(t, bad) && ArtifactOk(t, bad);
    Fewer(Sound(u), Sound(t), bad);
  }

  /** A reservation takes at least one candidate. */
  lemma ReservationTakes(t: Tables, p: PackageId, plan: Plan, keep: bool, now: int)
    requires Inv(t) && Selectable(t, p)
    ensures
      var u := InsertReservation(t, p, plan, keep, now);
      Sound(u) == Sound(t) && |Waiting(u)| < |Waiting(t)|
  {
    var u := InsertReservation(t, p, plan, keep, now);
    forall o
      ensures o in Sound(u) <==> o in Sound(t)
      ensures o in Waiting(u) ==> o in Waiting(t) && !AmongFirst(p, |p.members|, o)
    {
      ReserveRow(t, p, plan, keep, now, o);
    }
    var first := p.members[0].objectId;
    assert AmongFirst(p, |p.members|, first) && IsCandidate(t, p.project, first);
    Fewer(Waiting(u), Waiting(t), first);
  }

  lemma CallTakes(t0: Tables, project: string, cfg: Packaging, makePlan: PackageId -> Option<Plan>, now: int, fault: bool)
    requires Inv(t0) && ReservePackage(t0, project, cfg, makePlan, now, fault).1.Reserved?
    ensures
      var (u, result) := ReservePackage(t0, project, cfg, makePlan, now, fault);
      && Sound(u) == Sound(t0) && |Waiting(u)| < |Waiting(t0)|
      && IsBuilding(u, result.packageId)
  {
    ReservedPackage(t0, project, cfg, makePlan, now, fault);
    var t := EnsureProject(t0, project);
    var p := Picked(t, project, cfg, now);
    ReservationTakes(t, p, makePlan(p).value, Choose(t, project, cfg, now).draining, Unix(now));
    ReserveTables(t, p, makePlan(p).value, Choose(t, project, cfg, now).draining, Unix(now));
    assert Waiting(t) == Waiting(t0) && Sound(t) == Sound(t0);
  }

  // ---------- Purging ----------

  lemma SourceEnds(t: Tables, u: Tables, o: string, now: int)
    requires SourcePurgeDue(t, o, Unix(now)) && o in u.artifacts
    requires u == t.(artifacts := t.artifacts[o := u.artifacts[o]]) && SameMembership(t.artifacts[o], u.artifacts[o])
    requires u.artifacts[o].sourcePurgedAt.Some? || u.artifacts[o].nextSourcePurge > Unix(now)
    ensures Less(Work(u, now), Work(t, now))
  {
    assert Sound(u) == Sound(t) && Waiting(u) == Waiting(t);
    assert DueBuilds(u, Unix(now)) == DueBuilds(t, Unix(now));
    assert DueSources(u, Unix(now)) == DueSources(t, Unix(now)) - {o};
    Fewer(DueSources(u, Unix(now)), DueSources(t, Unix(now)), o);
  }

  lemma PurgeEnds(t: Tables, u: Tables, p: PackageId, now: int)
    requires PurgeDue(t, p, Unix(now)) && p in u.packages
    requires u == t.(packages := t.packages[p := u.packages[p]]) && u.packages[p].state.Sealed?
    requires u.packages[p].purgedAt.Some? || (u.packages[p].nextPurgeAt.Some? && u.packages[p].nextPurgeAt.value > Unix(now))
    ensures Less(Work(u, now), Work(t, now))
  {
    assert Sound(u) == Sound(t) && Waiting(u) == Waiting(t);
    assert DueBuilds(u, Unix(now)) == DueBuilds(t, Unix(now));
    assert DueSources(u, Unix(now)) == DueSources(t, Unix(now));
    forall q ensures q in DuePurges(u, Unix(now)) <==> q in DuePurges(t, Unix(now)) && q != p {
      assert AllDelivered(u, q) == AllDelivered(t, q);
    }
    Fewer(DuePurges(u, Unix(now)), DuePurges(t, Unix(now)), p);
  }

  lemma SameWork(t: Tables, u: Tables, now: int)
    requires u == t.(draining := u.draining)
    ensures Sound(u) == Sound(t) && Waiting(u) == Waiting(t) && Work(u, now) == Work(t, now)
  {
    assert Sound(u) == Sound(t) && Waiting(u) == Waiting(t);
    assert DueBuilds(u, Unix(now)) == DueBuilds(t, Unix(now)) && DueSources(u, Unix(now)) == DueSources(t, Unix(now));
    forall p ensures PurgeDue(u, p, Unix(now)) <==> PurgeDue(t, p, Unix(now)) {
      assert AllDelivered(u, p) == AllDelivered(t, p);
    }
    assert DuePurges(u, Unix(now)) == DuePurges(t, Unix(now));
  }

  // ---------- Idle ----------

  /** A reservation call for the project would find nothing to do. */
  ghost predicate Settled(t: Tables, project: string, cfg: Packaging, now: int) {
    && project in t.draining && Known(t, Candidates(t, project))
    && (if Candidates(t, project) == [] then !t.draining[project] else Choose(t, project, cfg, now).Wait?)
  }

  lemma NothingSettles(t0: Tables, project: string, cfg: Packaging, makePlan: PackageId -> Option<Plan>,
                       now: int, fault: bool)
    requires Inv(t0) && ReservePackage(t0, project, cfg, makePlan, now, fault).1.Nothing?
    ensures
      var u := ReservePackage(t0, project, cfg, makePlan, now, fault).0;
      && Settled(u, project, cfg, now)
      && u == t0.(draining := u.draining)
      && (forall other :: other in t0.draining && other != project ==>
            other in u.draining && u.draining[other] == t0.draining[other])
  {
    EnsureProjectKeeps(t0, project);
    UnreservedFlags(t0, project, cfg, makePlan, now, fault);
    NothingSettlesFrom(EnsureProject(t0, project), project, cfg, makePlan, now, fault);
  }

  lemma NothingSettlesFrom(t: Tables, project: string, cfg: Packaging, makePlan: PackageId -> Option<Plan>,
                           now: int, fault: bool)
    requires Inv(t) && project in t.draining && ReserveFrom(t, project, cfg, makePlan, now, fault).1.Nothing?
    ensures Settled(ReserveFrom(t, project, cfg, makePlan, now, fault).0, project, cfg, now)
  {
    CandidatesHold(t, project);
    if Candidates(t, project) == [] {
      SameCandidatesIn(t, SetDraining(t, project, false), project);
    } else if Choose(t, project, cfg, now).Reserve? {
      PickedFresh(t, project, cfg, now);
    }
  }

  lemma SameCandidatesIn(t: Tables, u: Tables, project: string)
    requires u == t.(draining := u.draining)
    ensures Candidates(u, project) == Candidates(t, project) && Known(u, Candidates(u, project))
  {
    CandidatesHold(t, project);
    CandidatesHold(u, project);
    assert CandidateSet(t, project) == CandidateSet(u, project);
    SameListing(CandidateSet(t, project), CandidateRank(t), CandidateRank(u));
  }

  lemma StaysSettled(t: Tables, u: Tables, project: string, cfg: Packaging, now: int)
    requires Settled(t, project, cfg, now) && u == t.(draining := u.draining)
    requires project in u.draining && u.draining[project] == t.draining[project]
    ensures Settled(u, project, cfg, now)
  {
    SameCandidatesIn(t, u, project);
    if Candidates(t, project) != [] {
      assert BacklogSizes(u, project) == BacklogSizes(t, project);
    }
  }

  ghost predicate Idle(t: Tables, projects: map<string, Packaging>, now: int) {
    && DueBuilds(t, Unix(now)) == {}
    && DueSources(t, Unix(now)) == {}
    && DuePurges(t, Unix(now)) == {}
    && forall project :: project in projects ==> Settled(t, project, projects[project], now)
  }

  /** On idle tables a call for any project changes nothing at all. */
  lemma SettledCallsDoNothing(t: Tables, project: string, cfg: Packaging, makePlan: PackageId -> Option<Plan>,
                              now: int, fault: bool)
    requires Settled(t, project, cfg, now)
    ensures ReservePackage(t, project, cfg, makePlan, now, fault) == (t, Nothing)
  {
    assert EnsureProject(t, project) == t;
  }
}
