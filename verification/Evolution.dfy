/**
 What no statement ever undoes: artifact rows keep their content columns, sealed packages keep their
 members, sizes, checksums and plans, and finished deliveries stay finished.
 */
module Evolution {
  import opened Schema
  import opened TablesInvariant

  /** Sealed: the artifact's upload may be removed. */
  ghost predicate Released(t: Tables, o: string) {
    o in t.artifacts && t.artifacts[o].packageId.Some? && IsSealed(t, t.artifacts[o].packageId.value)
  }

  ghost predicate SameContent(a: Artifact, b: Artifact) {
    && a.project == b.project && a.filename == b.filename && a.checksum == b.checksum
    && a.size == b.size && a.acceptedAt == b.acceptedAt
  }

  ghost predicate ArtifactEvolves(t: Tables, u: Tables, o: string) {
    o in t.artifacts ==>
      && o in u.artifacts
      && SameContent(t.artifacts[o], u.artifacts[o])
      && (Released(t, o) ==> Released(u, o) && u.artifacts[o].packageId == t.artifacts[o].packageId)
      && (t.artifacts[o].packagingError.Some? ==>
            && u.artifacts[o].packagingError == t.artifacts[o].packagingError
            && u.artifacts[o].packageId == t.artifacts[o].packageId)
  }

  ghost predicate MemberEvolves(t: Tables, u: Tables, o: string) {
    o in t.members && IsSealed(t, t.members[o].packageId) ==> o in u.members && u.members[o] == t.members[o]
  }

  ghost predicate PackageEvolves(t: Tables, u: Tables, p: PackageId) {
    p in t.packages ==>
      && p in u.packages
      && (t.packages[p].state.Sealed? ==>
            && u.packages[p].state.Sealed?
            && u.packages[p].size == t.packages[p].size
            && u.packages[p].checksum == t.packages[p].checksum
            && u.packages[p].manifestChecksum == t.packages[p].manifestChecksum)
      && (t.packages[p].purgeAfter.Some? ==>
            u.packages[p].purgeAfter.Some? && u.packages[p].purgeAfter.value >= t.packages[p].purgeAfter.value)
  }

  ghost predicate DeliveryEvolves(t: Tables, u: Tables, k: DeliveryKey) {
    && (k in t.deliveries ==>
          && k in u.deliveries
          && u.deliveries[k].plan == t.deliveries[k].plan
          && u.deliveries[k].attempts >= t.deliveries[k].attempts
          && (t.deliveries[k].state.Delivered? ==> u.deliveries[k] == t.deliveries[k]))
    && (k in u.deliveries && k !in t.deliveries ==> k.packageId !in t.packages)
  }

  ghost predicate Evolves(t: Tables, u: Tables) {
    && (forall o {:trigger ArtifactEvolves(t, u, o)} :: ArtifactEvolves(t, u, o))
    && (forall o {:trigger MemberEvolves(t, u, o)} :: MemberEvolves(t, u, o))
    && (forall p {:trigger PackageEvolves(t, u, p)} :: PackageEvolves(t, u, p))
    && (forall k {:trigger DeliveryEvolves(t, u, k)} :: DeliveryEvolves(t, u, k))
  }

  lemma StaysDelivered(t: Tables, u: Tables, p: PackageId)
    requires Evolves(t, u) && p in t.packages && AllDelivered(t, p)
    ensures AllDelivered(u, p)
  {
    forall k | k in u.deliveries && k.packageId == p ensures u.deliveries[k].state.Delivered? {
      assert DeliveryEvolves(t, u, k);
    }
  }

  lemma SameEvolves(t: Tables, u: Tables)
    requires u == t.(draining := u.draining)
    ensures Evolves(t, u)
  {
  }

  lemma AddArtifactEvolves(t: Tables, o: string, row: Artifact)
    ensures Evolves(t, AddArtifact(t, o, row))
  {
  }

  lemma PackageRowEvolves(t: Tables, u: Tables, p: PackageId)
    requires p in t.packages && p in u.packages && u == t.(packages := t.packages[p := u.packages[p]])
    requires PackageEvolves(t, u, p)
    ensures Evolves(t, u)
  {
    forall o ensures ArtifactEvolves(t, u, o) && MemberEvolves(t, u, o) {
    }
    forall q ensures PackageEvolves(t, u, q) {
    }
    forall k ensures DeliveryEvolves(t, u, k) {
    }
  }

  lemma PackageStatementsEvolve(t: Tables, p: PackageId)
    ensures p in t.packages ==> Evolves(t, StartBuild(t, p))
    ensures forall size, checksum, manifestChecksum, now ::
      Evolves(t, Seal(t, p, size, checksum, manifestChecksum, now))
    ensures forall message, retryAt :: Evolves(t, MarkBuildRetry(t, p, message, retryAt))
    ensures forall now :: Evolves(t, MarkPurged(t, p, now))
    ensures forall message, retryAt :: Evolves(t, MarkPurgeRetry(t, p, message, retryAt))
  {
    SameEvolves(t, t);
    if p in t.packages {
      PackageRowEvolves(t, StartBuild(t, p), p);
    }
    forall size, checksum, manifestChecksum, now
      ensures Evolves(t, Seal(t, p, size, checksum, manifestChecksum, now))
    {
      if IsBuilding(t, p) {
        PackageRowEvolves(t, Seal(t, p, size, checksum, manifestChecksum, now), p);
      }
    }
    forall message, retryAt ensures Evolves(t, MarkBuildRetry(t, p, message, retryAt)) {
      if IsBuilding(t, p) {
        PackageRowEvolves(t, MarkBuildRetry(t, p, message, retryAt), p);
      }
    }
    forall now ensures Evolves(t, MarkPurged(t, p, now)) {
      if Unpurged(t, p) {
        PackageRowEvolves(t, MarkPurged(t, p, now), p);
      }
    }
    forall message, retryAt ensures Evolves(t, MarkPurgeRetry(t, p, message, retryAt)) {
      if Unpurged(t, p) {
        PackageRowEvolves(t, MarkPurgeRetry(t, p, message, retryAt), p);
      }
    }
  }

  lemma SourceStatementEvolves(t: Tables, u: Tables)
    requires u == t.(artifacts := u.artifacts) && u.artifacts.Keys == t.artifacts.Keys
    requires forall o :: o in t.artifacts ==>
      && SameContent(t.artifacts[o], u.artifacts[o]) && u.artifacts[o].packageId == t.artifacts[o].packageId
      && u.artifacts[o].packagingError == t.artifacts[o].packagingError
    ensures Evolves(t, u)
  {
  }

  lemma SourceMarksEvolve(t: Tables, o: string, now: int, message: string, retryAt: int)
    ensures Evolves(t, MarkSourcePurged(t, o, now))
    ensures Evolves(t, MarkSourcePurgeRetry(t, o, message, retryAt))
  {
    SameEvolves(t, t);
    if SourceUnpurged(t, o) {
      SourceStatementEvolves(t, MarkSourcePurged(t, o, now));
      SourceStatementEvolves(t, MarkSourcePurgeRetry(t, o, message, retryAt));
    }
  }

  lemma DeliveryStatementsEvolve(t: Tables, k: DeliveryKey)
    requires Inv(t)
    ensures k in t.deliveries && !t.deliveries[k].state.Delivered? ==> Evolves(t, Claim(t, k))
    ensures forall message, retryAt :: Evolves(t, MarkRetry(t, k, message, retryAt))
    ensures forall snapshot :: Evolves(t, MarkProgress(t, k, snapshot))
  {
  }

  lemma RecoverEvolves(t: Tables, now: int)
    ensures Evolves(t, Recover(t, now))
  {
  }

  lemma MarkDeliveredEvolves(t: Tables, k: DeliveryKey, remoteId: string, deliveredAt: int, purgeAfter: int)
    ensures Evolves(t, MarkDelivered(t, k, remoteId, deliveredAt, purgeAfter))
  {
  }

  lemma IsolateEvolves(t: Tables, p: PackageId, invalid: map<string, string>)
    requires Inv(t) && IsBuilding(t, p) && invalid.Keys <= MembersOf(t, p)
    ensures Evolves(t, Isolate(t, p, invalid))
  {
    IsolateRows(t, p, invalid);
    var u := Isolate(t, p, invalid);
    forall q ensures PackageEvolves(t, u, q) {
      assert q != p && q in t.packages ==> u.packages[q] == t.packages[q];
    }
    forall o ensures ArtifactEvolves(t, u, o) && MemberEvolves(t, u, o) {
      if o in t.artifacts {
        assert ArtifactOk(t, o);
      }
    }
    forall k ensures DeliveryEvolves(t, u, k) {
    }
  }

  lemma ReservationEvolves(t: Tables, p: PackageId, plan: Plan, keep: bool, now: int)
    requires Inv(t) && Selectable(t, p)
    ensures Evolves(t, InsertReservation(t, p, plan, keep, now))
  {
    ReserveTables(t, p, plan, keep, now);
    var u := InsertReservation(t, p, plan, keep, now);
    forall o ensures ArtifactEvolves(t, u, o) && MemberEvolves(t, u, o) {
      ReserveRow(t, p, plan, keep, now, o);
      if AmongFirst(p, |p.members|, o) {
        assert IsCandidate(t, p.project, o);
      }
    }
    forall k ensures DeliveryEvolves(t, u, k) {
      if k in t.deliveries {
        assert DeliveryOk(t, k);
      }
    }
    forall q ensures PackageEvolves(t, u, q) {
    }
  }
}
