/**
 What holds in every reachable state and between any two states of a run, crashes included.
 */
module LifecycleTheorems {
  import opened Wrappers
  import opened Clock
  import opened Ordering
  import opened Schema
  import opened TablesInvariant
  import opened Evolution
  import opened Reservation
  import opened Store
  import opened Lifecycle
  import opened LifecycleInvariant

  // ---------- No accepted artifact is ever lost ----------

  ghost predicate InUpload(w: World, o: string) {
    o in w.ledger && o in w.uploads && w.uploads[o] == w.ledger[o].content
  }

  /** The bytes stand at the member's recorded range of a sealed package's durable payload. */
  ghost predicate InSealedPayload(w: World, o: string) {
    && o in w.ledger && o in w.t.members
    && var m := w.t.members[o];
       && IsSealed(w.t, m.packageId)
       && m.packageId in w.payloads && m.packageId in w.durablePayloads
       && 0 <= m.offset <= m.offset + m.size <= |w.payloads[m.packageId]|
       && w.payloads[m.packageId][m.offset..m.offset + m.size] == w.ledger[o].content
  }

  ghost predicate DeliveredEverywhere(w: World, o: string) {
    && o in w.t.members
    && IsSealed(w.t, w.t.members[o].packageId)
    && DeliveryKey(w.t.members[o].packageId, SINK) in w.t.deliveries
    && AllDelivered(w.t, w.t.members[o].packageId)
  }

  lemma AcceptedIsHeld(cfg: Config, w: World, o: string)
    requires WorldInv(cfg, w) && o in w.receipts
    ensures InUpload(w, o) || InSealedPayload(w, o) || DeliveredEverywhere(w, o)
  {
    assert ObjectOk(w, o);
    if o !in w.uploads {
      assert ArtifactOk(w.t, o);
      var p := w.t.artifacts[o].packageId.value;
      assert MemberOk(w.t, o) && PackageOk(w.t, p) && FilesOk(w, p);
      if p in w.payloads {
        OriginalSlice(w, p, w.t.members[o].ordinal, |p.members|);
      }
    }
  }

  /** In every reachable state each receipted object's accepted bytes are in its upload, or at its
      offset in a sealed package's payload, or were delivered to every sink. */
  lemma NoAcceptedArtifactIsLost(cfg: Config, worlds: seq<World>, actions: seq<Action>, i: nat, o: string)
    requires IsRun(cfg, worlds, actions) && i < |worlds| && o in worlds[i].receipts
    ensures
      var w := worlds[i];
      InUpload(w, o) || InSealedPayload(w, o) || DeliveredEverywhere(w, o)
  {
    RunKeeps(cfg, worlds, actions, i);
    AcceptedIsHeld(cfg, worlds[i], o);
  }

  /** The four tables agree in every reachable state, and a flag that is set means a target's worth of
      backlog. */
  lemma TablesAlwaysAgree(cfg: Config, worlds: seq<World>, actions: seq<Action>, i: nat)
    requires IsRun(cfg, worlds, actions) && i < |worlds|
    ensures Inv(worlds[i].t)
    ensures forall project :: project in cfg ==> DrainingOk(worlds[i].t, project, cfg[project])
  {
    RunKeeps(cfg, worlds, actions, i);
    forall project | project in cfg ensures DrainingOk(worlds[i].t, project, cfg[project]) {
      assert DrainingOk(worlds[i].t, project, cfg[project]);
    }
  }

  // ---------- Package layout ----------

  /** A sealed payload is exactly its members, tiled by their offsets, and its size column says so. */
  lemma PayloadRoundTrips(cfg: Config, w: World, p: PackageId, i: nat)
    requires WorldInv(cfg, w) && IsSealed(w.t, p) && p in w.payloads && i < |p.members|
    ensures
      var o := p.members[i].objectId;
      && o in w.t.members && w.t.members[o].packageId == p && w.t.members[o].ordinal == i
      && InSealedPayload(w, o)
      && w.t.members[o].offset + w.t.members[o].size ==
           (if i + 1 < |p.members| then Offset(p, i + 1) else |w.payloads[p]|)
    ensures w.t.packages[p].size == Some(|w.payloads[p]|)
  {
    assert PackageOk(w.t, p) && FilesOk(w, p) && ColumnsOk(w.t, p);
    assert OwnsAt(w.t, p, i);
    assert MemberOk(w.t, p.members[i].objectId);
    OriginalSlice(w, p, i, |p.members|);
    OriginalBytesLength(w, p, |p.members|);
    OffsetsTile(p, i);
  }

  /** The rows that materializePackage loads for a package under construction are its original
      members in their original order, as many as member_count says. */
  lemma LoadedMembersAreOriginal(t: Tables, p: PackageId, rows: seq<string>)
    requires Inv(t) && IsBuilding(t, p)
    requires forall o :: o in rows <==> o in MembersOf(t, p)
    requires Ordered(rows, MemberRank(t))
    ensures |rows| == |p.members| == t.packages[p].memberCount
    ensures forall i :: 0 <= i < |rows| ==> rows[i] == p.members[i].objectId
  {
    UnblockedMembers(t, p);
    assert CountOk(t, p) && PackageOk(t, p);
    IdsUpToSize(p, |p.members|);
    forall i | 0 <= i < |rows| ensures rows[i] in t.members && OwnedRow(t, p, rows[i]) {
      assert rows[i] in rows;
      assert MemberOk(t, rows[i]);
    }
    forall i | 0 <= i < |p.members| ensures p.members[i].objectId in rows {
      assert OwnsAt(t, p, i);
    }
    OrdinalsAscend(t, p, rows);
    RowsInOrder(t, p, rows, |rows|);
    RowsAreAll(t, p, rows);
  }

  ghost predicate OwnedRow(t: Tables, p: PackageId, o: string)
    requires o in t.members
  {
    var m := t.members[o];
    m.packageId == p && m.ordinal < |p.members| && p.members[m.ordinal].objectId == o
  }

  lemma OrdinalsAscend(t: Tables, p: PackageId, rows: seq<string>)
    requires IdentityOk(p) && Ordered(rows, MemberRank(t))
    requires forall i :: 0 <= i < |rows| ==> rows[i] in t.members && OwnedRow(t, p, rows[i])
    ensures forall i, j :: 0 <= i < j < |rows| ==> t.members[rows[i]].ordinal < t.members[rows[j]].ordinal
  {
    forall i, j | 0 <= i < j < |rows| ensures t.members[rows[i]].ordinal < t.members[rows[j]].ordinal {
      assert rows[i] != rows[j] && RankLe(MemberRank(t)(rows[i]), MemberRank(t)(rows[j]));
      assert OwnedRow(t, p, rows[i]) && OwnedRow(t, p, rows[j]);
    }
  }

  /** Strictly ascending ordinals that cover 0 to |members| - 1 are 0, 1, 2, ... */
  lemma {:induction false} RowsInOrder(t: Tables, p: PackageId, rows: seq<string>, n: nat)
    requires n <= |rows|
    requires forall i :: 0 <= i < |rows| ==> rows[i] in t.members && OwnedRow(t, p, rows[i])
    requires forall i, j :: 0 <= i < j < |rows| ==> t.members[rows[i]].ordinal < t.members[rows[j]].ordinal
    requires forall i :: 0 <= i < |p.members| ==> p.members[i].objectId in rows
    requires IdentityOk(p)
    ensures n <= |p.members|
    ensures forall i :: 0 <= i < n ==> rows[i] == p.members[i].objectId && t.members[rows[i]].ordinal == i
  {
    if n > 0 {
      RowsInOrder(t, p, rows, n - 1);
      var last := t.members[rows[n - 1]].ordinal;
      assert last >= n - 1;
      var at :| 0 <= at < |rows| && rows[at] == p.members[n - 1].objectId;
      assert t.members[rows[at]].ordinal == n - 1;
    }
  }

  lemma RowsAreAll(t: Tables, p: PackageId, rows: seq<string>)
    requires IdentityOk(p) && |rows| <= |p.members|
    requires forall i :: 0 <= i < |rows| ==> rows[i] == p.members[i].objectId
    requires forall i :: 0 <= i < |p.members| ==> p.members[i].objectId in rows
    ensures |rows| == |p.members|
  {
    var last := |p.members| - 1;
    assert p.members[last].objectId in rows;
    var at :| 0 <= at < |rows| && rows[at] == p.members[last].objectId;
    assert p.members[at].objectId == p.members[last].objectId;
    assert at == last;
  }

  // ---------- Retention ----------

  /** Whenever the purge unlinks a package file, every sink was delivered and the retention of each is
      over, through all roundings and purge retries. */
  lemma RetentionIsNeverShortened(cfg: Config, worlds: seq<World>, actions: seq<Action>, i: nat, k: DeliveryKey)
    requires IsRun(cfg, worlds, actions) && i < |actions|
    requires actions[i].UnlinkPayload? || actions[i].UnlinkManifest?
    requires worlds[i].packer.Unlinking?
    requires k in worlds[i].t.deliveries && k.packageId == worlds[i].packer.p
    ensures worlds[i].t.deliveries[k].state.Delivered?
    ensures RetentionOver(worlds[i], k)
    ensures worlds[i].t.deliveries[k].deliveredAt == Some(Unix(worlds[i].deliveredNs[k]))
  {
    RunKeeps(cfg, worlds, actions, i);
    var w := worlds[i];
    assert DeadlineOk(w, k);
    DeadlineNeverEarly(w.deliveredNs[k] + w.t.deliveries[k].plan.retentionNanos, w.now);
  }

  // ---------- Cleanup and reconciliation ----------

  /** Stale-upload cleanup never removes a file of an accepted object, and source purge removes one
      only when the sealed payload or every sink has the bytes. */
  lemma RemovalsAreSafe(cfg: Config, worlds: seq<World>, actions: seq<Action>, i: nat)
    requires IsRun(cfg, worlds, actions) && i < |actions|
    ensures actions[i].CleanData? || actions[i].CleanInfo? ==>
      worlds[i].cleaner.Some? && worlds[i].cleaner.value !in worlds[i].receipts
    ensures actions[i].RemoveData? || actions[i].RemoveInfo? ==>
      worlds[i].packer.RemovingSource?
      && (InSealedPayload(worlds[i], worlds[i].packer.o) || DeliveredEverywhere(worlds[i], worlds[i].packer.o))
  {
    RunKeeps(cfg, worlds, actions, i);
    assert StepAt(cfg, worlds, actions, i);
    var w := worlds[i];
    if w.cleaner.Some? {
      assert ObjectOk(w, w.cleaner.value);
    }
    if w.packer.RemovingSource? {
      ReleasedIsHeld(cfg, w, w.packer.o);
    }
  }

  lemma ReleasedIsHeld(cfg: Config, w: World, o: string)
    requires WorldInv(cfg, w) && Released(w.t, o)
    ensures InSealedPayload(w, o) || DeliveredEverywhere(w, o)
  {
    assert ObjectOk(w, o) && ArtifactOk(w.t, o) && MemberOk(w.t, o);
    var p := w.t.artifacts[o].packageId.value;
    assert PackageOk(w.t, p) && FilesOk(w, p);
    if p in w.payloads {
      OriginalSlice(w, p, w.t.members[o].ordinal, |p.members|);
    }
  }

  /** A receipted object without a row still has both its files, unchanged since acceptance, so that
      reconciliation can always rebuild the row that indexing would have written. */
  lemma ReconciliationIsAlwaysPossible(cfg: Config, worlds: seq<World>, actions: seq<Action>, i: nat, o: string)
    requires IsRun(cfg, worlds, actions) && i < |worlds|
    requires o in worlds[i].receipts && o !in worlds[i].t.artifacts
    ensures
      var w := worlds[i];
      && Enabled(cfg, w, Discover(o)) && Enabled(cfg, w, Index(o))
      && Apply(cfg, w, Discover(o)) == Apply(cfg, w, Index(o))
      && o in Apply(cfg, w, Discover(o)).t.artifacts
  {
    RunKeeps(cfg, worlds, actions, i);
    assert ObjectOk(worlds[i], o);
  }

  // ---------- What never changes once it is there ----------

  /** One step of the machine, seen from the tables and the receipts. */
  ghost predicate Advances(w: World, v: World) {
    && w.now <= v.now
    && Evolves(w.t, v.t)
    && (forall o :: o in w.receipts ==> o in v.receipts && v.receipts[o] == w.receipts[o])
    && (forall o :: o in w.ledger ==> o in v.ledger && v.ledger[o] == w.ledger[o])
  }

  lemma EvolutionAdvances(w: World, v: World)
    requires Evolves(w.t, v.t) && w.now <= v.now && v.receipts == w.receipts && v.ledger == w.ledger
    ensures Advances(w, v)
  {
  }

  lemma QuietAdvances(w: World, v: World)
    requires v.t == w.t && w.now <= v.now && v.receipts == w.receipts && v.ledger == w.ledger
    ensures Advances(w, v)
  {
    SameEvolves(w.t, v.t);
  }

  lemma ReceiverActionAdvances(cfg: Config, w: World, a: Action)
    requires IsReceiverAction(a)
    requires WorldInv(cfg, w) && ReceiverEnabled(w, a)
    ensures Advances(w, ReceiverApply(w, a))
  {
    var v := ReceiverApply(w, a);
    if a.Index? || a.Discover? {
      AddArtifactEvolves(w.t, a.o, RowOf(a.o, if a.Index? then w.ledger[a.o].info else w.infos[a.o], w.receipts[a.o]));
      EvolutionAdvances(w, v);
    } else if a.PublishReceipt? {
      SameEvolves(w.t, v.t);
      assert ObjectOk(w, a.o);
    } else {
      QuietAdvances(w, v);
    }
  }

  lemma FinishAdvances(w: World, a: Action)
    requires a.Finish? && DeliveryEnabled(w, a)
    ensures Advances(w, DeliveryApply(w, a))
  {
    var d := w.t.deliveries[a.k];
    MarkDeliveredEvolves(w.t, a.k, d.plan.identifier, Unix(w.now), UnixCeil(w.now + d.plan.retentionNanos));
    EvolutionAdvances(w, DeliveryApply(w, a));
  }

  lemma DeliveryActionAdvances(cfg: Config, w: World, a: Action)
    requires IsDeliveryAction(a)
    requires WorldInv(cfg, w) && DeliveryEnabled(w, a)
    ensures Advances(w, DeliveryApply(w, a))
  {
    var v := DeliveryApply(w, a);
    if a.Finish? {
      FinishAdvances(w, a);
    } else if a.Restart? {
      RecoverEvolves(w.t, Unix(w.now));
      EvolutionAdvances(w, v);
    } else if a.ClaimDelivery? || a.Fail? || a.Progress? {
      DeliveryStatementsEvolve(w.t, a.k);
      EvolutionAdvances(w, v);
    } else {
      QuietAdvances(w, v);
    }
  }

  lemma BuildActionAdvances(cfg: Config, w: World, a: Action)
    requires IsBuildAction(a)
    requires WorldInv(cfg, w) && BuildEnabled(cfg, w, a)
    ensures Advances(w, BuildApply(cfg, w, a))
  {
    var v := BuildApply(cfg, w, a);
    if a.ClaimBuild? {
      PackageStatementsEvolve(w.t, a.p);
      EvolutionAdvances(w, v);
    } else if a.CallReserve? {
      ReserveStepTables(cfg, w, a.project, a.plan, a.fault);
      EvolutionAdvances(w, v);
    } else if a.SealIt? || a.BuildRetry? {
      PackageStatementsEvolve(w.t, w.packer.p);
      EvolutionAdvances(w, v);
    } else if a.IsolateMembers? {
      IsolateEvolves(w.t, w.packer.p, a.invalid);
      EvolutionAdvances(w, v);
    } else {
      QuietAdvances(w, v);
    }
  }

  lemma PurgeActionAdvances(w: World, a: Action)
    requires IsPurgeAction(a) && PurgeEnabled(w, a)
    ensures Advances(w, PurgeApply(w, a))
  {
    var v := PurgeApply(w, a);
    if a.SourcePurged? {
      SourceMarksEvolve(w.t, w.packer.o, Unix(w.now), "", 0);
      EvolutionAdvances(w, v);
    } else if a.SourceRetry? {
      SourceMarksEvolve(w.t, w.packer.o, 0, a.message, UnixCeil(w.now + MINUTE));
      EvolutionAdvances(w, v);
    } else if a.PackagePurged? || a.PurgeRetry? {
      PackageStatementsEvolve(w.t, w.packer.p);
      EvolutionAdvances(w, v);
    } else {
      QuietAdvances(w, v);
    }
  }

  lemma StepAdvances(cfg: Config, w: World, a: Action)
    requires WorldInv(cfg, w) && Enabled(cfg, w, a)
    ensures Advances(w, Apply(cfg, w, a))
  {
    if IsReceiverAction(a) {
      ReceiverActionAdvances(cfg, w, a);
    } else if IsDeliveryAction(a) {
      DeliveryActionAdvances(cfg, w, a);
    } else if IsBuildAction(a) {
      BuildActionAdvances(cfg, w, a);
    } else {
      PurgeActionAdvances(w, a);
    }
  }

  /** What a later state still has of an earlier one. */
  ghost predicate Preserved(w: World, v: World) {
    && w.now <= v.now
    && (forall o :: o in w.receipts ==> o in v.receipts && v.receipts[o] == w.receipts[o])
    && (forall p :: IsSealed(w.t, p) ==>
          && IsSealed(v.t, p)
          && v.t.packages[p].size == w.t.packages[p].size
          && v.t.packages[p].checksum == w.t.packages[p].checksum
          && v.t.packages[p].manifestChecksum == w.t.packages[p].manifestChecksum)
    && (forall o :: o in w.t.members && IsSealed(w.t, w.t.members[o].packageId) ==>
          o in v.t.members && v.t.members[o] == w.t.members[o])
    && (forall o :: o in w.t.artifacts ==> o in v.t.artifacts && SameContent(w.t.artifacts[o], v.t.artifacts[o]))
    && (forall o :: o in w.t.artifacts && w.t.artifacts[o].packagingError.Some? ==>
          && o in v.t.artifacts
          && v.t.artifacts[o].packagingError == w.t.artifacts[o].packagingError
          && v.t.artifacts[o].packageId == w.t.artifacts[o].packageId)
    && (forall k :: k in w.t.deliveries ==>
          && k in v.t.deliveries
          && v.t.deliveries[k].plan == w.t.deliveries[k].plan
          && (w.t.deliveries[k].state.Delivered? ==> v.t.deliveries[k] == w.t.deliveries[k]))
  }

  lemma AdvancePreserves(u: World, w: World, v: World)
    requires Preserved(u, w) && Advances(w, v)
    ensures Preserved(u, v)
  {
    forall p | IsSealed(u.t, p)
      ensures IsSealed(v.t, p) && v.t.packages[p].size == u.t.packages[p].size
      ensures v.t.packages[p].checksum == u.t.packages[p].checksum
      ensures v.t.packages[p].manifestChecksum == u.t.packages[p].manifestChecksum
    {
      assert PackageEvolves(w.t, v.t, p);
    }
    forall o | o in u.t.members && IsSealed(u.t, u.t.members[o].packageId)
      ensures o in v.t.members && v.t.members[o] == u.t.members[o]
    {
      assert MemberEvolves(w.t, v.t, o);
    }
    forall o | o in u.t.artifacts ensures o in v.t.artifacts && SameContent(u.t.artifacts[o], v.t.artifacts[o]) {
      assert ArtifactEvolves(w.t, v.t, o);
    }
    forall o | o in u.t.artifacts && u.t.artifacts[o].packagingError.Some?
      ensures o in v.t.artifacts && v.t.artifacts[o].packagingError == u.t.artifacts[o].packagingError
      ensures v.t.artifacts[o].packageId == u.t.artifacts[o].packageId
    {
      assert ArtifactEvolves(w.t, v.t, o);
    }
    forall k | k in u.t.deliveries
      ensures k in v.t.deliveries && v.t.deliveries[k].plan == u.t.deliveries[k].plan
      ensures u.t.deliveries[k].state.Delivered? ==> v.t.deliveries[k] == u.t.deliveries[k]
    {
      assert DeliveryEvolves(w.t, v.t, k);
    }
  }

  /** Receipts, a sealed package's member rows, size and checksums, every delivery plan, delivered rows
      and packaging errors never change afterwards. */
  lemma {:induction false} SealedIsForever(cfg: Config, worlds: seq<World>, actions: seq<Action>, i: nat, j: nat)
    requires IsRun(cfg, worlds, actions) && i <= j < |worlds|
    ensures Preserved(worlds[i], worlds[j])
    decreases j
  {
    if i < j {
      SealedIsForever(cfg, worlds, actions, i, j - 1);
      RunKeeps(cfg, worlds, actions, j - 1);
      assert StepAt(cfg, worlds, actions, j - 1);
      StepAdvances(cfg, worlds[j - 1], actions[j - 1]);
      AdvancePreserves(worlds[i], worlds[j - 1], worlds[j]);
    }
  }
}
