/**
 A draining round on the tables: what repeated reservePackage calls form from one backlog, tied to the
 round on sizes whose optimality Draining proves.
 */
module DrainingRound {
  import opened Wrappers
  import opened Sequences
  import opened Clock
  import opened PackageIds
  import opened Schema
  import opened TablesInvariant
  import opened Ordering
  import opened Draining
  import opened Reservation

  lemma TailRows<K>(rows: seq<K>, rank: K -> Rank, k: K)
    requires Ordered(rows, rank) && rows != []
    ensures k in rows[1..] <==> k in rows && k != rows[0]
  {
    assert rows == [rows[0]] + rows[1..];
    assert rows[0] !in rows[1..];
  }

  lemma HasFirst<K>(rows: seq<K>)
    ensures rows == [] || rows[0] in rows
  {
  }

  /** An ordered listing is determined by its rows. */
  lemma {:induction false} OrderedUnique<K>(a: seq<K>, b: seq<K>, rank: K -> Rank)
    requires Ordered(a, rank) && Ordered(b, rank)
    requires forall k :: k in a <==> k in b
    requires forall x, y :: x in a && y in a && rank(x) == rank(y) ==> x == y
    ensures a == b
    decreases |a|
  {
    if a != [] {
      assert a[0] in b && b[0] in a;
      var i :| 0 <= i < |b| && b[i] == a[0];
      var j :| 0 <= j < |a| && a[j] == b[0];
      RankLeTotal(rank(a[0]), rank(b[0]));
      assert a[0] == b[0];
      forall k ensures k in a[1..] <==> k in b[1..] {
        TailRows(a, rank, k);
        TailRows(b, rank, k);
      }
      OrderedUnique(a[1..], b[1..], rank);
    } else {
      HasFirst(b);
    }
  }

  /** After a reservation the backlog is what stood behind the selected prefix, in the same order. */
  lemma BacklogShifts(t: Tables, project: string, cfg: Packaging, now: int, plan: Plan, keep: bool)
    requires Inv(t) && Backlogged(t, project) && Choose(t, project, cfg, now).Reserve?
    requires Selectable(t, Picked(t, project, cfg, now))
    ensures
      var u := InsertReservation(t, Picked(t, project, cfg, now), plan, keep, Unix(now));
      Candidates(u, project) == Candidates(t, project)[Choose(t, project, cfg, now).count..]
  {
    var p := Picked(t, project, cfg, now);
    var u := InsertReservation(t, p, plan, keep, Unix(now));
    var rest := Candidates(t, project)[Choose(t, project, cfg, now).count..];
    CandidatesHold(t, project);
    forall o ensures StaysBehind(t, u, project, rest, o) {
      PrefixOrRest(t, project, cfg, now, o);
      CandidatesAfterReserve(t, p, plan, keep, Unix(now), o);
      ReserveRow(t, p, plan, keep, Unix(now), o);
    }
    RestIsListing(t, u, project, rest);
  }

  ghost predicate StaysBehind(t: Tables, u: Tables, project: string, rest: seq<string>, o: string) {
    && (o in rest <==> IsCandidate(u, project, o))
    && (o in rest ==> CandidateRank(u)(o) == CandidateRank(t)(o))
  }

  lemma RestIsListing(t: Tables, u: Tables, project: string, rest: seq<string>)
    requires Ordered(rest, CandidateRank(t))
    requires forall o :: StaysBehind(t, u, project, rest, o)
    ensures Candidates(u, project) == rest
  {
    CandidatesHold(u, project);
    forall i | 0 <= i < |rest| ensures CandidateRank(u)(rest[i]) == CandidateRank(t)(rest[i]) {
      assert rest[i] in rest && StaysBehind(t, u, project, rest, rest[i]);
    }
    forall o ensures o in rest <==> o in Candidates(u, project) {
      assert StaysBehind(t, u, project, rest, o);
    }
    OrderedUnique(rest, Candidates(u, project), CandidateRank(u));
  }

  // ---------- Repeated calls ----------

  datatype Drained = Drained(t: Tables, packages: seq<PackageId>)

  /** Calls at the given instants. */
  ghost function Calls(t: Tables, project: string, merge: Merge, makePlan: PackageId -> Option<Plan>, nows: seq<int>): Drained
    decreases |nows|
  {
    if nows == [] then Drained(t, [])
    else
      var (u, result) := ReservePackage(t, project, PackMerge(merge), makePlan, nows[0], false);
      var rest := Calls(u, project, merge, makePlan, nows[1..]);
      if result.Reserved? then Drained(rest.t, [result.packageId] + rest.packages) else rest
  }

  function Counts(packages: seq<PackageId>): seq<nat> {
    if packages == [] then [] else [|packages[0].members|] + Counts(packages[1..])
  }

  function AllMembers(packages: seq<PackageId>): seq<MemberKey> {
    if packages == [] then [] else packages[0].members + AllMembers(packages[1..])
  }

  /** The state that a round starts from and passes through. */
  ghost predicate Ready(t: Tables, project: string, merge: Merge) {
    && Inv(t) && ValidMerge(merge) && project in t.draining
    && DrainingOk(t, project, PackMerge(merge))
    && Known(t, Candidates(t, project))
  }

  /** What one successful call leaves for the next. */
  lemma CallShifts(t: Tables, project: string, merge: Merge, makePlan: PackageId -> Option<Plan>, now: int)
    requires Ready(t, project, merge) && Candidates(t, project) != []
    requires Choose(t, project, PackMerge(merge), now).Reserve?
    requires forall p :: makePlan(p).Some?
    ensures
      var (u, result) := ReservePackage(t, project, PackMerge(merge), makePlan, now, false);
      var choice := Choose(t, project, PackMerge(merge), now);
      && result.Reserved? && Ready(u, project, merge)
      && |result.packageId.members| == choice.count
      && result.packageId.members + MemberKeys(u, Candidates(u, project)) == MemberKeys(t, Candidates(t, project))
      && BacklogSizes(u, project) == BacklogSizes(t, project)[choice.count..]
      && u.draining[project] == choice.draining
  {
    var cfg := PackMerge(merge);
    assert EnsureProject(t, project) == t;
    CallReserves(t, project, cfg, makePlan, now, false);
    var choice := Choose(t, project, cfg, now);
    var p := Picked(t, project, cfg, now);
    var plan := makePlan(p).value;
    var u := InsertReservation(t, p, plan, choice.draining, Unix(now));
    ReservePackageKeeps(t, project, cfg, makePlan, now, false);
    ReservePackageKeepsDraining(t, project, cfg, makePlan, now, false);
    BacklogShifts(t, project, cfg, now, plan, choice.draining);
    ReserveFlag(t, p, plan, choice.draining, Unix(now));
    CandidatesHold(u, project);
    RowsShift(t, u, project, choice.count, p, plan, choice.draining, now);
  }

  lemma RowsShift(t: Tables, u: Tables, project: string, count: nat, p: PackageId, plan: Plan, keep: bool, now: int)
    requires Inv(t) && Selectable(t, p) && u == InsertReservation(t, p, plan, keep, Unix(now))
    requires Known(t, Candidates(t, project)) && Known(u, Candidates(u, project)) && count <= |Candidates(t, project)|
    requires Candidates(u, project) == Candidates(t, project)[count..]
    requires p.members == MemberKeys(t, Candidates(t, project)[..count])
    ensures BacklogSizes(u, project) == BacklogSizes(t, project)[count..]
    ensures p.members + MemberKeys(u, Candidates(u, project)) == MemberKeys(t, Candidates(t, project))
  {
    var rows := Candidates(t, project);
    forall i | count <= i < |rows| ensures SameColumns(t, u, rows[i]) {
      assert rows[i] == Candidates(u, project)[i - count];
      ReserveRow(t, p, plan, keep, Unix(now), rows[i]);
    }
    KeysShift(t, u, rows, count);
  }

  ghost predicate SameColumns(t: Tables, u: Tables, o: string) {
    && o in t.artifacts && o in u.artifacts
    && u.artifacts[o].size == t.artifacts[o].size && u.artifacts[o].checksum == t.artifacts[o].checksum
  }

  lemma KeysShift(t: Tables, u: Tables, rows: seq<string>, count: nat)
    requires count <= |rows| && Known(t, rows) && Known(u, rows[count..])
    requires forall i :: count <= i < |rows| ==> SameColumns(t, u, rows[i])
    ensures Sizes(u, rows[count..]) == Sizes(t, rows)[count..]
    ensures MemberKeys(t, rows[..count]) + MemberKeys(u, rows[count..]) == MemberKeys(t, rows)
  {
  }

  lemma UnreservedCall(t: Tables, project: string, merge: Merge, makePlan: PackageId -> Option<Plan>, now: int)
    requires Ready(t, project, merge) && !ReservePackage(t, project, PackMerge(merge), makePlan, now, false).1.Reserved?
    ensures
      var u := ReservePackage(t, project, PackMerge(merge), makePlan, now, false).0;
      && Ready(u, project, merge)
      && BacklogSizes(u, project) == BacklogSizes(t, project)
      && MemberKeys(u, Candidates(u, project)) == MemberKeys(t, Candidates(t, project))
  {
    var u := ReservePackage(t, project, PackMerge(merge), makePlan, now, false).0;
    ReservePackageKeeps(t, project, PackMerge(merge), makePlan, now, false);
    ReservePackageKeepsDraining(t, project, PackMerge(merge), makePlan, now, false);
    UnreservedFlags(t, project, PackMerge(merge), makePlan, now, false);
    CandidatesHold(t, project);
    CandidatesHold(u, project);
    assert CandidateSet(u, project) == CandidateSet(t, project);
    SameListing(CandidateSet(t, project), CandidateRank(t), CandidateRank(u));
  }

  lemma JoinedMembers(p: PackageId, packages: seq<PackageId>, left: seq<MemberKey>)
    ensures AllMembers([p] + packages) + left == p.members + (AllMembers(packages) + left)
    ensures Counts([p] + packages) == [|p.members|] + Counts(packages)
  {
    assert ([p] + packages)[1..] == packages;
  }

  // ---------- Greedy blocks ----------

  /** The packages are the first blocks of the greedy cut of the ordered backlog, and the rest is left. */
  ghost predicate TakesBlocks(t: Tables, project: string, merge: Merge, d: Drained)
    requires Ready(t, project, merge)
  {
    && Ready(d.t, project, merge)
    && Counts(d.packages) + GreedyCut(BacklogSizes(d.t, project), merge.target)
         == GreedyCut(BacklogSizes(t, project), merge.target)
    && AllMembers(d.packages) + MemberKeys(d.t, Candidates(d.t, project)) == MemberKeys(t, Candidates(t, project))
  }

  /** A call that reserves takes the first block, whether a round or the age triggered it. */
  lemma FirstBlock(t: Tables, project: string, merge: Merge, makePlan: PackageId -> Option<Plan>, now: int, rest: Drained)
    requires Ready(t, project, merge) && ReservePackage(t, project, PackMerge(merge), makePlan, now, false).1.Reserved?
    requires forall p :: makePlan(p).Some?
    requires Ready(ReservePackage(t, project, PackMerge(merge), makePlan, now, false).0, project, merge)
    requires TakesBlocks(ReservePackage(t, project, PackMerge(merge), makePlan, now, false).0, project, merge, rest)
    ensures TakesBlocks(t, project, merge, Drained(rest.t,
      [ReservePackage(t, project, PackMerge(merge), makePlan, now, false).1.packageId] + rest.packages))
  {
    FirstBlockShifts(t, project, merge, makePlan, now);
    var (u, result) := ReservePackage(t, project, PackMerge(merge), makePlan, now, false);
    var p := result.packageId;
    BlockThenRest(BacklogSizes(t, project), merge.target, Counts(rest.packages),
                  GreedyCut(BacklogSizes(rest.t, project), merge.target));
    JoinedMembers(p, rest.packages, MemberKeys(rest.t, Candidates(rest.t, project)));
  }

  lemma BlockThenRest(sizes: seq<int>, target: int, counts: seq<nat>, left: seq<nat>)
    requires sizes != []
    requires counts + left == GreedyCut(sizes[GreedyLength(sizes, target)..], target)
    ensures [GreedyLength(sizes, target)] + counts + left == GreedyCut(sizes, target)
  {
    assert [GreedyLength(sizes, target)] + counts + left == [GreedyLength(sizes, target)] + (counts + left);
  }

  lemma FirstBlockShifts(t: Tables, project: string, merge: Merge, makePlan: PackageId -> Option<Plan>, now: int)
    requires Ready(t, project, merge) && ReservePackage(t, project, PackMerge(merge), makePlan, now, false).1.Reserved?
    requires forall p :: makePlan(p).Some?
    ensures
      var (u, result) := ReservePackage(t, project, PackMerge(merge), makePlan, now, false);
      var count := GreedyLength(BacklogSizes(t, project), merge.target);
      && BacklogSizes(t, project) != [] && Ready(u, project, merge)
      && |result.packageId.members| == count
      && result.packageId.members + MemberKeys(u, Candidates(u, project)) == MemberKeys(t, Candidates(t, project))
      && BacklogSizes(u, project) == BacklogSizes(t, project)[count..]
  {
    ReservedChoice(t, project, merge, makePlan, now);
    CallShifts(t, project, merge, makePlan, now);
  }

  lemma ReservedChoice(t: Tables, project: string, merge: Merge, makePlan: PackageId -> Option<Plan>, now: int)
    requires Ready(t, project, merge) && ReservePackage(t, project, PackMerge(merge), makePlan, now, false).1.Reserved?
    ensures Candidates(t, project) != [] && Choose(t, project, PackMerge(merge), now).Reserve?
    ensures Choose(t, project, PackMerge(merge), now).count == GreedyLength(BacklogSizes(t, project), merge.target)
  {
    assert EnsureProject(t, project) == t;
    ReservedPackage(t, project, PackMerge(merge), makePlan, now, false);
  }

  lemma NextReady(t: Tables, project: string, merge: Merge, makePlan: PackageId -> Option<Plan>, now: int)
    requires Ready(t, project, merge)
    requires forall p :: makePlan(p).Some?
    ensures Ready(ReservePackage(t, project, PackMerge(merge), makePlan, now, false).0, project, merge)
  {
    if ReservePackage(t, project, PackMerge(merge), makePlan, now, false).1.Reserved? {
      ReservedChoice(t, project, merge, makePlan, now);
      CallShifts(t, project, merge, makePlan, now);
    } else {
      UnreservedCall(t, project, merge, makePlan, now);
    }
  }

  /** Calls at any instants form exactly the first blocks of the greedy cut, over consecutive stretches
      of the backlog. */
  lemma {:induction false} CallsTakeGreedyBlocks(t: Tables, project: string, merge: Merge,
                                                 makePlan: PackageId -> Option<Plan>, nows: seq<int>)
    requires Ready(t, project, merge)
    requires forall p :: makePlan(p).Some?
    ensures TakesBlocks(t, project, merge, Calls(t, project, merge, makePlan, nows))
    decreases |nows|
  {
    if nows != [] {
      NextReady(t, project, merge, makePlan, nows[0]);
      var (u, result) := ReservePackage(t, project, PackMerge(merge), makePlan, nows[0], false);
      var rest := Calls(u, project, merge, makePlan, nows[1..]);
      CallsTakeGreedyBlocks(u, project, merge, makePlan, nows[1..]);
      if result.Reserved? {
        FirstBlock(t, project, merge, makePlan, nows[0], rest);
      } else {
        UnreservedCall(t, project, merge, makePlan, nows[0]);
      }
    }
  }

  // ---------- The fewest packages ----------

  /** The packages hold the whole backlog in order, each within the target or alone, and no cut of the
      backlog into such packages has fewer. */
  ghost predicate Optimal(t: Tables, project: string, merge: Merge, packages: seq<PackageId>)
    requires Known(t, Candidates(t, project))
  {
    && AllMembers(packages) == MemberKeys(t, Candidates(t, project))
    && IsCut(Counts(packages), BacklogSizes(t, project), merge.target)
    && forall cut: seq<nat> :: IsCut(cut, BacklogSizes(t, project), merge.target) ==> |packages| <= |cut|
  }

  lemma {:induction false} CountsLength(packages: seq<PackageId>)
    ensures |Counts(packages)| == |packages|
  {
    if packages != [] {
      CountsLength(packages[1..]);
    }
  }

  /** Calls that leave nothing, at whatever instants, formed the fewest packages possible. */
  lemma EmptiedIsOptimal(t: Tables, project: string, merge: Merge, d: Drained)
    requires Ready(t, project, merge) && TakesBlocks(t, project, merge, d)
    requires Candidates(d.t, project) == []
    ensures Optimal(t, project, merge, d.packages)
  {
    var sizes := BacklogSizes(t, project);
    BacklogPositive(t, project);
    assert MemberKeys(d.t, Candidates(d.t, project)) == [];
    assert Counts(d.packages) + [] == Counts(d.packages);
    assert AllMembers(d.packages) + [] == AllMembers(d.packages);
    CountsLength(d.packages);
    GreedyCutIsCut(sizes, merge.target);
    forall cut: seq<nat> | IsCut(cut, sizes, merge.target) ensures |d.packages| <= |cut| {
      GreedyCutOptimal(sizes, cut, merge.target);
    }
  }

  // ---------- A round ----------

  /** The trigger is reached or a round is on. */
  ghost predicate Rounding(t: Tables, project: string, merge: Merge)
    requires Ready(t, project, merge)
  {
    t.draining[project] || Backlog(t, project) >= merge.trigger
  }

  /** While it lasts every call reserves, and it lasts until less than one target is left. */
  lemma RoundGoesOn(t: Tables, project: string, merge: Merge, makePlan: PackageId -> Option<Plan>, now: int)
    requires Ready(t, project, merge) && Rounding(t, project, merge)
    requires forall p :: makePlan(p).Some?
    ensures
      var (u, result) := ReservePackage(t, project, PackMerge(merge), makePlan, now, false);
      && result.Reserved? && Ready(u, project, merge)
      && |Candidates(u, project)| < |Candidates(t, project)|
      && (Rounding(u, project, merge) || Backlog(u, project) < merge.target)
  {
    BacklogPositive(t, project);
    assert EnsureProject(t, project) == t;
    var choice := Choose(t, project, PackMerge(merge), now);
    CallShifts(t, project, merge, makePlan, now);
    var u := ReservePackage(t, project, PackMerge(merge), makePlan, now, false).0;
    BacklogPositive(u, project);
    SumSplit(BacklogSizes(t, project), choice.count);
    assert |Candidates(u, project)| == |BacklogSizes(u, project)|;
  }

  lemma BacklogShrinks(t: Tables, project: string, merge: Merge, makePlan: PackageId -> Option<Plan>, now: int)
    requires Ready(t, project, merge)
    requires forall p :: makePlan(p).Some?
    ensures
      var u := ReservePackage(t, project, PackMerge(merge), makePlan, now, false).0;
      Ready(u, project, merge) && Backlog(u, project) <= Backlog(t, project)
  {
    NextReady(t, project, merge, makePlan, now);
    var (u, result) := ReservePackage(t, project, PackMerge(merge), makePlan, now, false);
    BacklogPositive(t, project);
    BacklogPositive(u, project);
    if result.Reserved? {
      FirstBlockShifts(t, project, merge, makePlan, now);
      var count := GreedyLength(BacklogSizes(t, project), merge.target);
      SumSplit(BacklogSizes(t, project), count);
      SumAtLeastLength(BacklogSizes(t, project)[..count]);
    } else {
      UnreservedCall(t, project, merge, makePlan, now);
    }
  }

  lemma {:induction false} CallsShrink(t: Tables, project: string, merge: Merge, makePlan: PackageId -> Option<Plan>, nows: seq<int>)
    requires Ready(t, project, merge)
    requires forall p :: makePlan(p).Some?
    ensures Backlog(Calls(t, project, merge, makePlan, nows).t, project) <= Backlog(t, project)
    decreases |nows|
  {
    if nows != [] {
      BacklogShrinks(t, project, merge, makePlan, nows[0]);
      CallsShrink(ReservePackage(t, project, PackMerge(merge), makePlan, nows[0], false).0, project, merge, makePlan, nows[1..]);
    }
  }

  /** As many calls as there are candidates end the round. */
  lemma {:induction false} CallsEndRound(t: Tables, project: string, merge: Merge, makePlan: PackageId -> Option<Plan>,
                                         nows: seq<int>)
    requires Ready(t, project, merge)
    requires forall p :: makePlan(p).Some?
    requires Rounding(t, project, merge) || Backlog(t, project) < merge.target
    requires |nows| >= |Candidates(t, project)|
    ensures Backlog(Calls(t, project, merge, makePlan, nows).t, project) < merge.target
    decreases |nows|
  {
    BacklogPositive(t, project);
    if nows != [] && Rounding(t, project, merge) {
      RoundGoesOn(t, project, merge, makePlan, nows[0]);
      CallsEndRound(ReservePackage(t, project, PackMerge(merge), makePlan, nows[0], false).0, project, merge, makePlan, nows[1..]);
    } else if nows != [] {
      CallsShrink(t, project, merge, makePlan, nows);
    } else {
      assert BacklogSizes(t, project) == [];
    }
  }

  /** The age of the oldest candidate, if any is left. */
  ghost predicate TailAged(t: Tables, project: string, merge: Merge, now: int) {
    Known(t, Candidates(t, project)) && Candidates(t, project) != [] ==>
      Aged(now, t.artifacts[Candidates(t, project)[0]].acceptedAt, merge.maxWait)
  }

  /** One call triggered by age takes a whole tail below the target. */
  lemma FlushEmpties(t: Tables, project: string, merge: Merge, makePlan: PackageId -> Option<Plan>, later: int)
    requires Ready(t, project, merge) && TailAged(t, project, merge, later)
    requires Backlog(t, project) < merge.target
    requires forall p :: makePlan(p).Some?
    ensures Candidates(ReservePackage(t, project, PackMerge(merge), makePlan, later, false).0, project) == []
  {
    BacklogPositive(t, project);
    var u := ReservePackage(t, project, PackMerge(merge), makePlan, later, false).0;
    assert EnsureProject(t, project) == t;
    if Candidates(t, project) != [] {
      SmallBacklogIsOneBlock(BacklogSizes(t, project), merge.target);
      CallShifts(t, project, merge, makePlan, later);
      assert |Candidates(u, project)| == |BacklogSizes(u, project)| == 0;
    } else {
      UnreservedCall(t, project, merge, makePlan, later);
      assert |Candidates(u, project)| == |BacklogSizes(u, project)|;
    }
  }

  lemma {:induction false} CallsThenCall(t: Tables, project: string, merge: Merge, makePlan: PackageId -> Option<Plan>,
                                         nows: seq<int>, later: int)
    ensures Calls(t, project, merge, makePlan, nows + [later]).t
         == ReservePackage(Calls(t, project, merge, makePlan, nows).t, project, PackMerge(merge), makePlan, later, false).0
    decreases |nows|
  {
    if nows == [] {
      assert [later][1..] == [] && ([] + [later])[0] == later;
    } else {
      assert (nows + [later])[1..] == nows[1..] + [later];
      CallsThenCall(ReservePackage(t, project, PackMerge(merge), makePlan, nows[0], false).0, project, merge, makePlan,
                    nows[1..], later);
    }
  }

  /** A backlog that reached the trigger, drained by as many calls as it has candidates and one more
      once what is left has aged, ends up in the fewest packages possible, at whatever instants the
      calls came. */
  lemma DrainingRoundIsOptimal(t: Tables, project: string, merge: Merge, makePlan: PackageId -> Option<Plan>,
                               nows: seq<int>, later: int)
    requires Ready(t, project, merge)
    requires forall p :: makePlan(p).Some?
    requires |nows| >= |Candidates(t, project)| && Rounding(t, project, merge)
    requires TailAged(Calls(t, project, merge, makePlan, nows).t, project, merge, later)
    ensures Optimal(t, project, merge, Calls(t, project, merge, makePlan, nows + [later]).packages)
  {
    CallsTakeGreedyBlocks(t, project, merge, makePlan, nows);
    CallsEndRound(t, project, merge, makePlan, nows);
    FlushEmpties(Calls(t, project, merge, makePlan, nows).t, project, merge, makePlan, later);
    CallsThenCall(t, project, merge, makePlan, nows, later);
    CallsTakeGreedyBlocks(t, project, merge, makePlan, nows + [later]);
    EmptiedIsOptimal(t, project, merge, Calls(t, project, merge, makePlan, nows + [later]));
  }

  // ---------- A project's first round ----------

  /** The first call inserts the project's row; from there on the calls are those of the project with its
      row. */
  lemma FirstCallInserts(t: Tables, project: string, merge: Merge, makePlan: PackageId -> Option<Plan>, nows: seq<int>)
    requires nows != []
    ensures Calls(t, project, merge, makePlan, nows) == Calls(EnsureProject(t, project), project, merge, makePlan, nows)
  {
    var u := EnsureProject(t, project);
    assert EnsureProject(u, project) == u;
  }

  /** The round of any project, with its row or still without. */
  lemma AnyRoundIsOptimal(t: Tables, project: string, merge: Merge, makePlan: PackageId -> Option<Plan>,
                          nows: seq<int>, later: int)
    requires Inv(t) && ValidMerge(merge) && DrainingOk(t, project, PackMerge(merge))
    requires Known(t, Candidates(t, project))
    requires forall p :: makePlan(p).Some?
    requires |nows| >= |Candidates(t, project)|
    requires (project in t.draining && t.draining[project]) || Backlog(t, project) >= merge.trigger
    requires TailAged(Calls(t, project, merge, makePlan, nows).t, project, merge, later)
    ensures Optimal(t, project, merge, Calls(t, project, merge, makePlan, nows + [later]).packages)
  {
    var u := EnsureProject(t, project);
    EnsureProjectKeeps(t, project);
    SameCandidates(t, project);
    SameBacklog(t, project);
    BacklogPositive(t, project);
    DrainingKept(t, u, project, PackMerge(merge));
    assert nows != [] by {
      assert |BacklogSizes(t, project)| == |Candidates(t, project)|;
    }
    FirstCallInserts(t, project, merge, makePlan, nows);
    FirstCallInserts(t, project, merge, makePlan, nows + [later]);
    DrainingRoundIsOptimal(u, project, merge, makePlan, nows, later);
    SameColumnsOptimal(t, u, project, merge, Calls(u, project, merge, makePlan, nows + [later]).packages);
  }

  lemma SameColumnsOptimal(t: Tables, u: Tables, project: string, merge: Merge, packages: seq<PackageId>)
    requires u == t.(draining := u.draining) && Candidates(u, project) == Candidates(t, project)
    requires Known(t, Candidates(t, project)) && Optimal(u, project, merge, packages)
    ensures Optimal(t, project, merge, packages)
  {
    assert BacklogSizes(t, project) == BacklogSizes(u, project);
    assert MemberKeys(t, Candidates(t, project)) == MemberKeys(u, Candidates(u, project));
  }
}
