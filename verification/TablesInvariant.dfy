/**
 The inductive invariant that ties the four tables together, and the proof that every statement and
 transaction keeps it.
 */
module TablesInvariant {
  import opened Wrappers
  import opened PackageIds
  import opened Schema

  // ---------- The invariant ----------

  /** What holds of a package ID by itself: it names distinct members of positive size. */
  ghost predicate IdentityOk(p: PackageId) {
    && p.members != []
    && (forall i, j :: 0 <= i < j < |p.members| ==> p.members[i].objectId != p.members[j].objectId)
    && (forall i :: 0 <= i < |p.members| ==> p.members[i].size >= 1)
    && (p.packager.IdentityPackager? ==> |p.members| == 1)
    && Hashable(p)
  }

  /** An artifact is unreserved, or exactly the member row of its one package; errors lie exactly in
      blocked packages and purged sources only in sealed ones. */
  ghost predicate ArtifactOk(t: Tables, o: string)
    requires o in t.artifacts
  {
    var a := t.artifacts[o];
    && a.size >= 1
    && NoNul(o) && NoNul(a.checksum) && NoNul(a.project)
    && (a.packageId.None? ==> o !in t.members && a.packagingError.None? && a.sourcePurgedAt.None?)
    && (a.packageId.Some? ==>
          && o in t.members && t.members[o].packageId == a.packageId.value
          && a.packageId.value in t.packages
          && a.packageId.value.project == a.project
          && (a.packagingError.Some? <==> t.packages[a.packageId.value].state.Blocked?)
          && (a.sourcePurgedAt.Some? ==> t.packages[a.packageId.value].state.Sealed?))
  }

  /** A member row repeats the entry of its package's original list at its ordinal, at the offset
      where the entries before it end. */
  ghost predicate MemberOk(t: Tables, o: string)
    requires o in t.members
  {
    var m := t.members[o];
    && o in t.artifacts
    && t.artifacts[o].packageId == Some(m.packageId)
    && t.artifacts[o].size == m.size && t.artifacts[o].checksum == m.checksum
    && m.packageId in t.packages
    && m.ordinal < |m.packageId.members|
    && m.packageId.members[m.ordinal] == MemberKey(o, m.checksum, m.size)
    && m.offset == Offset(m.packageId, m.ordinal)
  }

  ghost predicate OwnsAt(t: Tables, p: PackageId, i: nat)
    requires i < |p.members|
  {
    var o := p.members[i].objectId;
    o in t.members && t.members[o].packageId == p && t.members[o].ordinal == i
  }

  ghost predicate ErroredMember(t: Tables, p: PackageId, o: string) {
    o in t.artifacts && t.artifacts[o].packageId == Some(p) && t.artifacts[o].packagingError.Some?
  }

  /** Building and sealed packages still own every original member; a blocked one keeps an original
      member with a permanent error. */
  ghost predicate PackageOk(t: Tables, p: PackageId)
    requires p in t.packages
  {
    && IdentityOk(p)
    && DeliveryKey(p, SINK) in t.deliveries
    && (!t.packages[p].state.Blocked? ==>
          forall i {:trigger OwnsAt(t, p, i)} :: 0 <= i < |p.members| ==> OwnsAt(t, p, i))
    && (t.packages[p].state.Blocked? ==>
          && p.packager.MergePackager?
          && exists i :: 0 <= i < |p.members| && ErroredMember(t, p, p.members[i].objectId))
  }

  function MembersOf(t: Tables, p: PackageId): set<string> {
    set o | o in t.members && t.members[o].packageId == p
  }

  ghost predicate CountOk(t: Tables, p: PackageId)
    requires p in t.packages
  {
    t.packages[p].memberCount == |MembersOf(t, p)|
  }

  ghost predicate ColumnsOk(t: Tables, p: PackageId)
    requires p in t.packages
  {
    var pkg := t.packages[p];
    && (pkg.state.Sealed? <==> pkg.size.Some?)
    && (pkg.state.Sealed? <==> pkg.checksum.Some?)
    && (pkg.state.Sealed? ==> pkg.size.value == Offset(p, |p.members|))
    && (pkg.purgedAt.Some? ==> pkg.state.Sealed? && AllDelivered(t, p))
    && (pkg.purgeAfter.None? ==> pkg.nextPurgeAt.None?)
    && (pkg.purgeAfter.Some? && pkg.purgedAt.None? ==>
          pkg.nextPurgeAt.Some? && pkg.nextPurgeAt.value >= pkg.purgeAfter.value)
  }

  /** Only sealed packages were ever claimed; a blocked package's delivery stays pending. */
  ghost predicate DeliveryOk(t: Tables, k: DeliveryKey)
    requires k in t.deliveries
  {
    var d := t.deliveries[k];
    && k.sinkId == SINK && k.packageId in t.packages
    && (!d.state.Pending? || d.attempts > 0 ==> t.packages[k.packageId].state.Sealed?)
    && (!d.state.Pending? ==> d.attempts > 0)
    && (d.progress.Some? ==> d.state.Delivering?)
    && (d.state.Delivered? <==> d.deliveredAt.Some?)
    && (d.state.Delivered? ==> t.packages[k.packageId].purgeAfter.Some?)
  }

  ghost predicate ArtifactsInv(t: Tables) {
    forall o {:trigger ArtifactOk(t, o)} :: o in t.artifacts ==> ArtifactOk(t, o)
  }

  ghost predicate MembersInv(t: Tables) {
    forall o {:trigger MemberOk(t, o)} :: o in t.members ==> MemberOk(t, o)
  }

  ghost predicate PackagesInv(t: Tables) {
    forall p {:trigger PackageOk(t, p)} :: p in t.packages ==> PackageOk(t, p)
  }

  ghost predicate CountsInv(t: Tables) {
    forall p {:trigger CountOk(t, p)} :: p in t.packages ==> CountOk(t, p)
  }

  ghost predicate ColumnsInv(t: Tables) {
    forall p {:trigger ColumnsOk(t, p)} :: p in t.packages ==> ColumnsOk(t, p)
  }

  ghost predicate DeliveriesInv(t: Tables) {
    forall k {:trigger DeliveryOk(t, k)} :: k in t.deliveries ==> DeliveryOk(t, k)
  }

  ghost predicate Inv(t: Tables) {
    && ArtifactsInv(t) && MembersInv(t) && PackagesInv(t)
    && CountsInv(t) && ColumnsInv(t) && DeliveriesInv(t)
  }

  // ---------- What the invariant says about the tables as a whole ----------

  /** A member row (p, o) exists exactly when artifacts[o].package_id is p. */
  lemma MembershipAgrees(t: Tables, p: PackageId, o: string)
    requires Inv(t)
    ensures o in MembersOf(t, p) <==> o in t.artifacts && t.artifacts[o].packageId == Some(p)
  {
    if o in t.members {
      assert MemberOk(t, o);
    }
    if o in t.artifacts {
      assert ArtifactOk(t, o);
    }
  }

  /** The primary key (package_id, ordinal) of package_members. */
  lemma OrdinalsUnique(t: Tables, a: string, b: string)
    requires Inv(t) && a in t.members && b in t.members
    requires t.members[a].packageId == t.members[b].packageId && t.members[a].ordinal == t.members[b].ordinal
    ensures a == b
  {
    assert MemberOk(t, a) && MemberOk(t, b);
  }

  /** An artifact carries a packaging error exactly when its package is blocked. */
  lemma ErrorsLieInBlockedPackages(t: Tables, o: string)
    requires Inv(t) && o in t.artifacts
    ensures t.artifacts[o].packagingError.Some? <==>
      (exists p :: p in t.packages && t.packages[p].state.Blocked? && t.artifacts[o].packageId == Some(p))
  {
    assert ArtifactOk(t, o);
  }

  function OriginalIds(p: PackageId): set<string> {
    set i | 0 <= i < |p.members| :: p.members[i].objectId
  }

  /** A building or sealed package has its original members and no other. */
  lemma UnblockedMembers(t: Tables, p: PackageId)
    requires Inv(t) && p in t.packages && !t.packages[p].state.Blocked?
    ensures MembersOf(t, p) == OriginalIds(p)
  {
    assert PackageOk(t, p);
    forall o | o in MembersOf(t, p) ensures o in OriginalIds(p) {
      assert MemberOk(t, o);
      assert p.members[t.members[o].ordinal].objectId == o;
    }
    forall o | o in OriginalIds(p) ensures o in MembersOf(t, p) {
      var i :| 0 <= i < |p.members| && p.members[i].objectId == o;
      assert OwnsAt(t, p, i);
    }
  }

  // ---------- No reservation collides ----------

  ghost predicate Selectable(t: Tables, p: PackageId) {
    && IdentityOk(p)
    && forall i :: 0 <= i < |p.members| ==>
         && IsCandidate(t, p.project, p.members[i].objectId)
         && t.artifacts[p.members[i].objectId].checksum == p.members[i].checksum
         && t.artifacts[p.members[i].objectId].size == p.members[i].size
  }

  /** Distinct candidates derive a well-formed identity. */
  lemma DeriveSelectable(t: Tables, project: string, packager: Packager, selected: seq<string>)
    requires Inv(t) && selected != [] && Known(t, selected)
    requires forall i :: 0 <= i < |selected| ==> IsCandidate(t, project, selected[i])
    requires forall i, j :: 0 <= i < j < |selected| ==> selected[i] != selected[j]
    requires packager.IdentityPackager? ==> |selected| == 1
    ensures Selectable(t, Derive(t, project, packager, selected))
  {
    forall i | 0 <= i < |selected|
      ensures NoNul(selected[i]) && NoNul(t.artifacts[selected[i]].checksum)
      ensures t.artifacts[selected[i]].size >= 1 && NoNul(project)
    {
      assert ArtifactOk(t, selected[i]);
    }
    assert IsCandidate(t, project, selected[0]);
  }

  /** Every existing package has an original member that is not free to be reserved again. */
  lemma OriginalNotFree(t: Tables, p: PackageId)
    requires Inv(t) && p in t.packages
    ensures exists i :: 0 <= i < |p.members| && !IsCandidate(t, p.project, p.members[i].objectId)
  {
    assert PackageOk(t, p);
    if !t.packages[p].state.Blocked? {
      assert OwnsAt(t, p, 0);
      assert MemberOk(t, p.members[0].objectId);
      assert !IsCandidate(t, p.project, p.members[0].objectId);
    }
  }

  /** A package ID derived from candidates names no existing row: the hashed byte string differs from
      that of every package, so the insert always takes effect and the `inserted == 0` exit of
      reservePackage is unreachable. */
  lemma ReservationNeverCollides(t: Tables, p: PackageId)
    requires Inv(t) && Selectable(t, p)
    ensures p !in t.packages
    ensures forall q :: q in t.packages ==> Encode(q) != Encode(p)
  {
    forall q | q in t.packages ensures q != p && Encode(q) != Encode(p) {
      OriginalNotFree(t, q);
      assert PackageOk(t, q);
      EncodeInjective(q, p);
    }
  }

  // ---------- Statements that change no membership ----------

  ghost predicate SameMembership(a: Artifact, b: Artifact) {
    && a.project == b.project && a.checksum == b.checksum && a.size == b.size
    && a.packageId == b.packageId && a.packagingError == b.packagingError
  }

  ghost predicate Quiet(t: Tables, u: Tables) {
    && u.members == t.members
    && u.artifacts.Keys == t.artifacts.Keys
    && u.packages.Keys == t.packages.Keys
    && u.deliveries.Keys == t.deliveries.Keys
    && (forall o :: o in t.artifacts ==> SameMembership(t.artifacts[o], u.artifacts[o]))
    && (forall o :: o in t.artifacts && u.artifacts[o].sourcePurgedAt.Some? && t.artifacts[o].sourcePurgedAt.None? ==>
          u.artifacts[o].packageId.Some? && IsSealed(u, u.artifacts[o].packageId.value))
    && (forall p :: p in t.packages ==>
          && u.packages[p].memberCount == t.packages[p].memberCount
          && (u.packages[p].state == t.packages[p].state
              || (t.packages[p].state.Building? && u.packages[p].state.Sealed?)))
  }

  lemma QuietKeepsRows(t: Tables, u: Tables)
    requires ArtifactsInv(t) && MembersInv(t) && Quiet(t, u)
    ensures ArtifactsInv(u) && MembersInv(u)
  {
    forall o | o in u.artifacts ensures ArtifactOk(u, o) {
      assert ArtifactOk(t, o);
      assert SameMembership(t.artifacts[o], u.artifacts[o]);
    }
    forall o | o in u.members ensures MemberOk(u, o) {
      assert MemberOk(t, o);
      assert SameMembership(t.artifacts[o], u.artifacts[o]);
    }
  }

  lemma QuietKeepsPackages(t: Tables, u: Tables)
    requires PackagesInv(t) && CountsInv(t) && Quiet(t, u)
    ensures PackagesInv(u) && CountsInv(u)
  {
    forall p | p in u.packages ensures PackageOk(u, p) {
      assert PackageOk(t, p);
      SamePackage(t, u, p);
    }
    forall p | p in u.packages ensures CountOk(u, p) {
      assert CountOk(t, p);
      assert MembersOf(u, p) == MembersOf(t, p);
    }
  }

  /** A package stays well-formed while its members and their errors stay. */
  lemma SamePackage(t: Tables, u: Tables, p: PackageId)
    requires p in t.packages && p in u.packages && PackageOk(t, p)
    requires u.packages[p].state.Blocked? <==> t.packages[p].state.Blocked?
    requires DeliveryKey(p, SINK) in u.deliveries
    requires forall o :: o in t.members && t.members[o].packageId == p ==> o in u.members && u.members[o] == t.members[o]
    requires forall o :: ErroredMember(t, p, o) ==> ErroredMember(u, p, o)
    ensures PackageOk(u, p)
  {
    if t.packages[p].state.Blocked? {
      var i :| 0 <= i < |p.members| && ErroredMember(t, p, p.members[i].objectId);
      assert ErroredMember(u, p, p.members[i].objectId);
    } else {
      forall i | 0 <= i < |p.members| ensures OwnsAt(u, p, i) {
        assert OwnsAt(t, p, i);
      }
    }
  }

  lemma QuietKeeps(t: Tables, u: Tables)
    requires Inv(t) && Quiet(t, u) && ColumnsInv(u) && DeliveriesInv(u)
    ensures Inv(u)
  {
    QuietKeepsRows(t, u);
    QuietKeepsPackages(t, u);
  }

  /** A statement on one package row: only that row's columns need checking. */
  lemma PackageRowKeeps(t: Tables, u: Tables, p: PackageId)
    requires Inv(t) && p in t.packages
    requires p in u.packages && u == t.(packages := t.packages[p := u.packages[p]])
    requires Quiet(t, u) && ColumnsOk(u, p)
    requires u.packages[p].purgeAfter == t.packages[p].purgeAfter
    ensures Inv(u)
  {
    forall q | q in u.packages ensures ColumnsOk(u, q) {
      if q != p {
        assert ColumnsOk(t, q);
        assert AllDelivered(t, q) == AllDelivered(u, q);
      }
    }
    forall k | k in u.deliveries ensures DeliveryOk(u, k) {
      assert DeliveryOk(t, k);
    }
    QuietKeeps(t, u);
  }

  lemma StartBuildKeeps(t: Tables, p: PackageId)
    requires Inv(t) && p in t.packages
    ensures Inv(StartBuild(t, p))
  {
    assert ColumnsOk(t, p);
    assert AllDelivered(t, p) == AllDelivered(StartBuild(t, p), p);
    PackageRowKeeps(t, StartBuild(t, p), p);
  }

  lemma SealKeeps(t: Tables, p: PackageId, size: int, checksum: string, manifestChecksum: string, now: int)
    requires Inv(t)
    requires IsBuilding(t, p) ==> size == Offset(p, |p.members|)
    ensures Inv(Seal(t, p, size, checksum, manifestChecksum, now))
  {
    if IsBuilding(t, p) {
      assert ColumnsOk(t, p);
      PackageRowKeeps(t, Seal(t, p, size, checksum, manifestChecksum, now), p);
    }
  }

  lemma MarkBuildRetryKeeps(t: Tables, p: PackageId, message: string, retryAt: int)
    requires Inv(t)
    ensures Inv(MarkBuildRetry(t, p, message, retryAt))
  {
    if IsBuilding(t, p) {
      assert ColumnsOk(t, p);
      PackageRowKeeps(t, MarkBuildRetry(t, p, message, retryAt), p);
    }
  }

  lemma MarkPurgedKeeps(t: Tables, p: PackageId, now: int)
    requires Inv(t) && (Unpurged(t, p) ==> AllDelivered(t, p))
    ensures Inv(MarkPurged(t, p, now))
  {
    if Unpurged(t, p) {
      assert ColumnsOk(t, p);
      assert AllDelivered(MarkPurged(t, p, now), p);
      PackageRowKeeps(t, MarkPurged(t, p, now), p);
    }
  }

  lemma MarkPurgeRetryKeeps(t: Tables, p: PackageId, message: string, retryAt: int)
    requires Inv(t)
    requires Unpurged(t, p) ==>
      t.packages[p].purgeAfter.Some? && retryAt >= t.packages[p].purgeAfter.value
    ensures Inv(MarkPurgeRetry(t, p, message, retryAt))
  {
    if Unpurged(t, p) {
      assert ColumnsOk(t, p);
      PackageRowKeeps(t, MarkPurgeRetry(t, p, message, retryAt), p);
    }
  }

  /** A statement on artifacts' purge columns or on the draining flags. */
  lemma SourceRowKeeps(t: Tables, u: Tables)
    requires Inv(t)
    requires u == t.(artifacts := u.artifacts, draining := u.draining) && Quiet(t, u)
    ensures Inv(u)
  {
    forall q | q in u.packages ensures ColumnsOk(u, q) {
      assert ColumnsOk(t, q);
      assert AllDelivered(t, q) == AllDelivered(u, q);
    }
    forall k | k in u.deliveries ensures DeliveryOk(u, k) {
      assert DeliveryOk(t, k);
    }
    QuietKeeps(t, u);
  }

  lemma MarkSourcePurgedKeeps(t: Tables, o: string, now: int)
    requires Inv(t)
    requires SourceUnpurged(t, o) ==>
      t.artifacts[o].packageId.Some? && IsSealed(t, t.artifacts[o].packageId.value)
    ensures Inv(MarkSourcePurged(t, o, now))
  {
    SourceRowKeeps(t, MarkSourcePurged(t, o, now));
  }

  lemma MarkSourcePurgeRetryKeeps(t: Tables, o: string, message: string, retryAt: int)
    requires Inv(t)
    ensures Inv(MarkSourcePurgeRetry(t, o, message, retryAt))
  {
    SourceRowKeeps(t, MarkSourcePurgeRetry(t, o, message, retryAt));
  }

  /** A statement on delivery rows that forgets no finished delivery. */
  lemma DeliveryRowsKeep(t: Tables, u: Tables)
    requires Inv(t)
    requires u == t.(deliveries := u.deliveries) && u.deliveries.Keys == t.deliveries.Keys
    requires forall k :: k in t.deliveries && t.deliveries[k].state.Delivered? ==> u.deliveries[k].state.Delivered?
    requires DeliveriesInv(u)
    ensures Inv(u)
  {
    forall q | q in u.packages ensures ColumnsOk(u, q) {
      assert ColumnsOk(t, q);
    }
    QuietKeeps(t, u);
  }

  lemma ClaimKeeps(t: Tables, k: DeliveryKey, now: int)
    requires Inv(t) && Claimable(t, k, now)
    ensures Inv(Claim(t, k))
  {
    var u := Claim(t, k);
    forall x | x in u.deliveries ensures DeliveryOk(u, x) {
      assert DeliveryOk(t, x);
    }
    DeliveryRowsKeep(t, u);
  }

  lemma MarkRetryKeeps(t: Tables, k: DeliveryKey, message: string, retryAt: int)
    requires Inv(t)
    ensures Inv(MarkRetry(t, k, message, retryAt))
  {
    var u := MarkRetry(t, k, message, retryAt);
    forall x | x in u.deliveries ensures DeliveryOk(u, x) {
      assert DeliveryOk(t, x);
    }
    DeliveryRowsKeep(t, u);
  }

  lemma MarkProgressKeeps(t: Tables, k: DeliveryKey, snapshot: Snapshot)
    requires Inv(t)
    ensures Inv(MarkProgress(t, k, snapshot))
  {
    var u := MarkProgress(t, k, snapshot);
    forall x | x in u.deliveries ensures DeliveryOk(u, x) {
      assert DeliveryOk(t, x);
    }
    DeliveryRowsKeep(t, u);
  }

  lemma RecoverKeeps(t: Tables, now: int)
    requires Inv(t)
    ensures Inv(Recover(t, now))
  {
    var u := Recover(t, now);
    forall x | x in u.deliveries ensures DeliveryOk(u, x) {
      assert DeliveryOk(t, x);
    }
    DeliveryRowsKeep(t, u);
  }

  lemma MarkDeliveredKeeps(t: Tables, k: DeliveryKey, remoteId: string, deliveredAt: int, purgeAfter: int)
    requires Inv(t)
    ensures Inv(MarkDelivered(t, k, remoteId, deliveredAt, purgeAfter))
  {
    if InDelivery(t, k) {
      var u := MarkDelivered(t, k, remoteId, deliveredAt, purgeAfter);
      assert DeliveryOk(t, k);
      forall x | x in u.deliveries ensures DeliveryOk(u, x) {
        assert DeliveryOk(t, x);
      }
      forall q | q in u.packages ensures ColumnsOk(u, q) {
        assert ColumnsOk(t, q);
      }
      QuietKeeps(t, u);
    }
  }

  // ---------- New artifacts ----------

  lemma EmptyKeeps()
    ensures Inv(EMPTY)
  {
  }

  lemma AddArtifactKeepsRows(t: Tables, o: string, row: Artifact)
    requires Inv(t) && row.size >= 1 && NoNul(o) && NoNul(row.checksum) && NoNul(row.project)
    requires row.packageId.None? && row.packagingError.None? && row.sourcePurgedAt.None?
    ensures ArtifactsInv(AddArtifact(t, o, row)) && MembersInv(AddArtifact(t, o, row))
  {
    var u := AddArtifact(t, o, row);
    forall x | x in u.members ensures MemberOk(u, x) {
      assert MemberOk(t, x);
    }
    if o in t.members {
      assert MemberOk(t, o);
    }
    forall x | x in u.artifacts ensures ArtifactOk(u, x) {
      if x in t.artifacts {
        assert ArtifactOk(t, x);
      }
    }
  }

  lemma AddArtifactKeeps(t: Tables, o: string, row: Artifact)
    requires Inv(t) && row.size >= 1 && NoNul(o) && NoNul(row.checksum) && NoNul(row.project)
    requires row.packageId.None? && row.packagingError.None? && row.sourcePurgedAt.None?
    ensures Inv(AddArtifact(t, o, row))
  {
    var u := AddArtifact(t, o, row);
    AddArtifactKeepsRows(t, o, row);
    forall p | p in u.packages ensures PackageOk(u, p) && CountOk(u, p) && ColumnsOk(u, p) {
      AddArtifactKeepsPackage(t, o, row, p);
    }
    forall k | k in u.deliveries ensures DeliveryOk(u, k) {
      assert DeliveryOk(t, k);
    }
  }

  lemma AddArtifactKeepsPackage(t: Tables, o: string, row: Artifact, p: PackageId)
    requires Inv(t) && p in t.packages
    ensures
      var u := AddArtifact(t, o, row);
      PackageOk(u, p) && CountOk(u, p) && ColumnsOk(u, p)
  {
    var u := AddArtifact(t, o, row);
    assert PackageOk(t, p) && CountOk(t, p) && ColumnsOk(t, p);
    SamePackage(t, u, p);
    assert MembersOf(u, p) == MembersOf(t, p);
    assert AllDelivered(t, p) == AllDelivered(u, p);
  }

  lemma ProjectsKeep(t: Tables, u: Tables)
    requires Inv(t) && u == t.(draining := u.draining)
    ensures Inv(u)
  {
    SourceRowKeeps(t, u);
  }

  // ---------- Isolation ----------

  /** The rows isolation touches, and what becomes of them. */
  lemma IsolateRows(t: Tables, p: PackageId, invalid: map<string, string>)
    requires Inv(t) && IsBuilding(t, p) && invalid.Keys <= MembersOf(t, p)
    ensures
      var u := Isolate(t, p, invalid);
      && u.artifacts.Keys == t.artifacts.Keys
      && (forall o :: o in t.artifacts ==>
            u.artifacts[o] ==
              if t.artifacts[o].packageId != Some(p) then t.artifacts[o]
              else if o in invalid then t.artifacts[o].(packagingError := Some(Truncate(invalid[o])))
              else t.artifacts[o].(packageId := None))
      && (forall o :: o in u.members <==> o in t.members && (t.members[o].packageId != p || o in invalid))
      && (forall o :: o in u.members ==> u.members[o] == t.members[o])
  {
    forall o | o in t.artifacts && t.artifacts[o].packageId == Some(p)
      ensures t.artifacts[o].packagingError.None?
    {
      assert ArtifactOk(t, o);
    }
    forall o | o in t.members
      ensures o in t.artifacts && t.artifacts[o].packageId == Some(t.members[o].packageId)
    {
      assert MemberOk(t, o);
    }
  }

  lemma IsolateKeepsRows(t: Tables, p: PackageId, invalid: map<string, string>)
    requires Inv(t) && IsBuilding(t, p) && invalid.Keys <= MembersOf(t, p)
    ensures ArtifactsInv(Isolate(t, p, invalid)) && MembersInv(Isolate(t, p, invalid))
  {
    IsolateRows(t, p, invalid);
    var u := Isolate(t, p, invalid);
    forall o | o in u.artifacts ensures ArtifactOk(u, o) {
      assert ArtifactOk(t, o);
    }
    forall o | o in u.members ensures MemberOk(u, o) {
      assert MemberOk(t, o);
    }
  }

  lemma IsolateMembersOf(t: Tables, p: PackageId, invalid: map<string, string>, q: PackageId)
    requires Inv(t) && IsBuilding(t, p) && invalid.Keys <= MembersOf(t, p)
    ensures MembersOf(Isolate(t, p, invalid), q) == if q == p then invalid.Keys else MembersOf(t, q)
  {
    IsolateRows(t, p, invalid);
  }

  lemma IsolateKeepsPackage(t: Tables, p: PackageId, invalid: map<string, string>, q: PackageId)
    requires Inv(t) && IsBuilding(t, p) && p.packager.MergePackager?
    requires invalid.Keys != {} && invalid.Keys <= MembersOf(t, p)
    requires q in t.packages
    ensures PackageOk(Isolate(t, p, invalid), q)
  {
    IsolateRows(t, p, invalid);
    assert PackageOk(t, q);
    var u := Isolate(t, p, invalid);
    if q == p {
      var o :| o in invalid;
      assert MemberOk(t, o);
      assert ErroredMember(u, p, p.members[t.members[o].ordinal].objectId);
    } else {
      SamePackage(t, u, q);
    }
  }

  lemma IsolateKeeps(t: Tables, p: PackageId, invalid: map<string, string>)
    requires Inv(t) && IsBuilding(t, p) && p.packager.MergePackager?
    requires invalid.Keys != {} && invalid.Keys <= MembersOf(t, p)
    ensures Inv(Isolate(t, p, invalid))
  {
    var u := Isolate(t, p, invalid);
    IsolateKeepsRows(t, p, invalid);
    forall q | q in u.packages ensures PackageOk(u, q) && CountOk(u, q) && ColumnsOk(u, q) {
      IsolateKeepsPackage(t, p, invalid, q);
      IsolateMembersOf(t, p, invalid, q);
      assert CountOk(t, q) && ColumnsOk(t, q);
      assert |invalid| == |invalid.Keys|;
      assert AllDelivered(t, q) == AllDelivered(u, q);
    }
    forall k | k in u.deliveries ensures DeliveryOk(u, k) {
      assert DeliveryOk(t, k);
    }
  }

  /** Isolation gives every good member back to the queue and keeps exactly the bad ones. */
  lemma IsolateReturnsGoodMembers(t: Tables, p: PackageId, invalid: map<string, string>, o: string)
    requires Inv(t) && IsBuilding(t, p) && invalid.Keys <= MembersOf(t, p)
    requires o in MembersOf(t, p)
    ensures
      var u := Isolate(t, p, invalid);
      && (o !in invalid ==> IsCandidate(u, p.project, o) && o !in u.members)
      && (o in invalid ==> ErroredMember(u, p, o) && o in u.members && u.members[o] == t.members[o])
  {
    IsolateRows(t, p, invalid);
    assert MemberOk(t, o) && ArtifactOk(t, o);
  }

  // ---------- Reservation ----------

  ghost predicate AllKnown(t: Tables, p: PackageId) {
    forall i :: 0 <= i < |p.members| ==> p.members[i].objectId in t.artifacts
  }

  /** o is one of the first n original members of p. */
  ghost predicate AmongFirst(p: PackageId, n: int, o: string) {
    exists i :: 0 <= i < n && i < |p.members| && p.members[i].objectId == o
  }

  lemma AmongFirstStep(p: PackageId, n: nat, o: string)
    requires 0 < n <= |p.members|
    ensures AmongFirst(p, n, o) <==> AmongFirst(p, n - 1, o) || o == p.members[n - 1].objectId
  {
    if AmongFirst(p, n, o) {
      var i :| 0 <= i < n && i < |p.members| && p.members[i].objectId == o;
      assert i < n - 1 ==> AmongFirst(p, n - 1, o);
    }
  }

  /** The rows of object o after n turns of the member loop. */
  ghost predicate InsertedAt(t: Tables, u: Tables, p: PackageId, n: nat, o: string) {
    && (o in u.artifacts <==> o in t.artifacts)
    && (o in t.artifacts ==>
          u.artifacts[o] == if AmongFirst(p, n, o) then t.artifacts[o].(packageId := Some(p)) else t.artifacts[o])
    && (o in u.members <==> o in t.members || AmongFirst(p, n, o))
    && (o in t.members && !AmongFirst(p, n, o) ==> u.members[o] == t.members[o])
  }

  lemma {:induction false} InsertedRows(t: Tables, p: PackageId, n: nat, o: string)
    requires n <= |p.members| && AllKnown(t, p)
    ensures InsertedAt(t, InsertMembers(t, p, n), p, n, o)
    ensures InsertMembers(t, p, n).packages == t.packages
    ensures InsertMembers(t, p, n).deliveries == t.deliveries
  {
    if n == 0 {
      assert !AmongFirst(p, 0, o);
    } else {
      InsertedRows(t, p, n - 1, o);
      AmongFirstStep(p, n, o);
    }
  }

  lemma {:induction false} InsertedMember(t: Tables, p: PackageId, n: nat, i: nat)
    requires i < n <= |p.members| && AllKnown(t, p) && IdentityOk(p)
    ensures
      var o := p.members[i].objectId;
      var u := InsertMembers(t, p, n);
      && o in u.members
      && u.members[o] == Member(p, i, Offset(p, i), t.artifacts[o].size, t.artifacts[o].checksum)
  {
    if i == n - 1 {
      InsertedRows(t, p, n - 1, p.members[i].objectId);
    } else {
      InsertedMember(t, p, n - 1, i);
    }
  }

  /** What one reservation changes: one new package and delivery row, */
  lemma ReserveTables(t: Tables, p: PackageId, plan: Plan, keepDraining: bool, now: int)
    requires Inv(t) && Selectable(t, p)
    ensures
      var u := InsertReservation(t, p, plan, keepDraining, now);
      && p !in t.packages
      && u.packages == t.packages[p := NewPackage(|p.members|, now)]
      && u.deliveries == t.deliveries[DeliveryKey(p, SINK) := NewDelivery(plan)]
  {
    ReservationNeverCollides(t, p);
    InsertedRows(InsertPackage(t, p, NewPackage(|p.members|, now), plan), p, |p.members|, "");
  }

  /** One new package row and one new delivery row, both fresh; no other row of either table changes. */
  ghost predicate AddsFreshRows(t: Tables, u: Tables, p: PackageId, plan: Plan, now: int) {
    && p !in t.packages && p in u.packages && DeliveryKey(p, SINK) in u.deliveries
    && u.packages == t.packages[p := u.packages[p]] && FreshPackage(u.packages[p], |p.members|, now)
    && u.deliveries == t.deliveries[DeliveryKey(p, SINK) := u.deliveries[DeliveryKey(p, SINK)]]
    && FreshDelivery(u.deliveries[DeliveryKey(p, SINK)], plan)
  }

  lemma ReserveAddsFreshRows(t: Tables, p: PackageId, plan: Plan, keepDraining: bool, now: int)
    requires Inv(t) && Selectable(t, p)
    ensures AddsFreshRows(t, InsertReservation(t, p, plan, keepDraining, now), p, plan, now)
  {
    ReserveTables(t, p, plan, keepDraining, now);
  }

  /** and, for each object, its artifact and member row exactly if it is an original member. */
  lemma ReserveRow(t: Tables, p: PackageId, plan: Plan, keepDraining: bool, now: int, o: string)
    requires Inv(t) && Selectable(t, p)
    ensures
      var u := InsertReservation(t, p, plan, keepDraining, now);
      && (o in u.artifacts <==> o in t.artifacts)
      && (o in t.artifacts ==>
            u.artifacts[o] == if AmongFirst(p, |p.members|, o) then t.artifacts[o].(packageId := Some(p)) else t.artifacts[o])
      && (o in u.members <==> o in t.members || AmongFirst(p, |p.members|, o))
      && (o in t.members ==>
            !AmongFirst(p, |p.members|, o) && u.members[o] == t.members[o] && t.members[o].packageId != p)
  {
    ReservationNeverCollides(t, p);
    InsertedRows(InsertPackage(t, p, NewPackage(|p.members|, now), plan), p, |p.members|, o);
    if o in t.members {
      assert MemberOk(t, o);
    }
  }

  lemma ReservedMember(t: Tables, p: PackageId, plan: Plan, keepDraining: bool, now: int, i: nat)
    requires Inv(t) && Selectable(t, p) && i < |p.members|
    ensures
      var o := p.members[i].objectId;
      var u := InsertReservation(t, p, plan, keepDraining, now);
      && o in u.members
      && u.members[o] == Member(p, i, Offset(p, i), p.members[i].size, p.members[i].checksum)
  {
    InsertedMember(InsertPackage(t, p, NewPackage(|p.members|, now), plan), p, |p.members|, i);
  }

  lemma ReserveKeepsRows(t: Tables, p: PackageId, plan: Plan, keepDraining: bool, now: int)
    requires Inv(t) && Selectable(t, p)
    ensures
      var u := InsertReservation(t, p, plan, keepDraining, now);
      ArtifactsInv(u) && MembersInv(u)
  {
    var u := InsertReservation(t, p, plan, keepDraining, now);
    ReserveTables(t, p, plan, keepDraining, now);
    forall o | o in u.artifacts ensures ArtifactOk(u, o) {
      ReserveRow(t, p, plan, keepDraining, now, o);
      assert ArtifactOk(t, o);
      if AmongFirst(p, |p.members|, o) {
        var i :| 0 <= i < |p.members| && p.members[i].objectId == o;
        ReservedMember(t, p, plan, keepDraining, now, i);
      }
    }
    forall o | o in u.members ensures MemberOk(u, o) {
      ReserveRow(t, p, plan, keepDraining, now, o);
      if o in t.members {
        assert MemberOk(t, o);
      } else {
        var i :| 0 <= i < |p.members| && p.members[i].objectId == o;
        ReservedMember(t, p, plan, keepDraining, now, i);
      }
    }
  }

  lemma {:induction false} IdsUpToSize(p: PackageId, n: nat)
    requires IdentityOk(p) && n <= |p.members|
    ensures |set i | 0 <= i < n :: p.members[i].objectId| == n
  {
    if n > 0 {
      IdsUpToSize(p, n - 1);
      var before := set i | 0 <= i < n - 1 :: p.members[i].objectId;
      assert (set i | 0 <= i < n :: p.members[i].objectId) == before + {p.members[n - 1].objectId};
    }
  }

  lemma ReservedMembersOf(t: Tables, p: PackageId, plan: Plan, keepDraining: bool, now: int, q: PackageId)
    requires Inv(t) && Selectable(t, p)
    ensures
      var u := InsertReservation(t, p, plan, keepDraining, now);
      && MembersOf(u, q) == (if q == p then OriginalIds(p) else MembersOf(t, q))
      && |OriginalIds(p)| == |p.members|
  {
    var u := InsertReservation(t, p, plan, keepDraining, now);
    IdsUpToSize(p, |p.members|);
    forall o
      ensures o in MembersOf(u, q) <==> o in if q == p then OriginalIds(p) else MembersOf(t, q)
    {
      ReserveRow(t, p, plan, keepDraining, now, o);
      if AmongFirst(p, |p.members|, o) {
        var i :| 0 <= i < |p.members| && p.members[i].objectId == o;
        ReservedMember(t, p, plan, keepDraining, now, i);
      }
    }
  }

  lemma ReserveKeepsPackage(t: Tables, p: PackageId, plan: Plan, keepDraining: bool, now: int, q: PackageId)
    requires Inv(t) && Selectable(t, p) && (q in t.packages || q == p)
    ensures
      var u := InsertReservation(t, p, plan, keepDraining, now);
      q in u.packages && PackageOk(u, q)
  {
    var u := InsertReservation(t, p, plan, keepDraining, now);
    ReserveTables(t, p, plan, keepDraining, now);
    if q == p {
      forall i | 0 <= i < |p.members| ensures OwnsAt(u, p, i) {
        ReservedMember(t, p, plan, keepDraining, now, i);
      }
    } else {
      assert PackageOk(t, q);
      forall o
        ensures o in t.members ==> o in u.members && u.members[o] == t.members[o]
        ensures ErroredMember(t, q, o) ==> ErroredMember(u, q, o)
      {
        ReserveRow(t, p, plan, keepDraining, now, o);
        if AmongFirst(p, |p.members|, o) {
          assert IsCandidate(t, p.project, o);
        }
      }
      SamePackage(t, u, q);
    }
  }

  lemma ReserveKeepsColumns(t: Tables, p: PackageId, plan: Plan, keepDraining: bool, now: int)
    requires Inv(t) && Selectable(t, p)
    ensures ColumnsInv(InsertReservation(t, p, plan, keepDraining, now))
    ensures DeliveriesInv(InsertReservation(t, p, plan, keepDraining, now))
  {
    var u := InsertReservation(t, p, plan, keepDraining, now);
    ReserveTables(t, p, plan, keepDraining, now);
    forall q | q in u.packages ensures ColumnsOk(u, q) {
      if q != p {
        assert ColumnsOk(t, q);
        assert AllDelivered(t, q) == AllDelivered(u, q);
      }
    }
    forall k | k in u.deliveries ensures DeliveryOk(u, k) {
      if k in t.deliveries {
        assert DeliveryOk(t, k);
      }
    }
  }

  lemma ReserveKeeps(t: Tables, p: PackageId, plan: Plan, keepDraining: bool, now: int)
    requires Inv(t) && Selectable(t, p)
    ensures Inv(InsertReservation(t, p, plan, keepDraining, now))
  {
    var u := InsertReservation(t, p, plan, keepDraining, now);
    ReserveTables(t, p, plan, keepDraining, now);
    ReserveKeepsRows(t, p, plan, keepDraining, now);
    ReserveKeepsColumns(t, p, plan, keepDraining, now);
    forall q | q in u.packages ensures PackageOk(u, q) {
      ReserveKeepsPackage(t, p, plan, keepDraining, now, q);
    }
    forall q | q in u.packages ensures CountOk(u, q) {
      ReservedMembersOf(t, p, plan, keepDraining, now, q);
      if q != p {
        assert CountOk(t, q);
      }
    }
  }
}
