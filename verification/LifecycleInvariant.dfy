/**
 The invariant of the whole machine and the proof that every step keeps it.
 */
module LifecycleInvariant {
  import opened Wrappers
  import opened Clock
  import opened PackageNames
  import opened Schema
  import opened TablesInvariant
  import opened Evolution
  import opened Reservation
  import opened Lifecycle

  // ---------- The invariant ----------

  ghost predicate RowMatches(a: Artifact, o: string, acc: Accepted) {
    && a.project == acc.info.project && a.filename == SafeFilename(acc.info.filename, o)
    && a.checksum == acc.receipt.checksum && a.size == acc.receipt.size
    && a.acceptedAt == acc.receipt.acceptedAt
  }

  /** An accepted object: its receipt, its upload while that exists, and its row tell the same story;
      the upload goes only after its package is sealed, and never while the object is unindexed. */
  ghost predicate AcceptedOk(w: World, o: string)
    requires o in w.ledger
  {
    var acc := w.ledger[o];
    && o in w.receipts && w.receipts[o] == acc.receipt
    && Admissible(o, acc.info) && acc.receipt.checksum == acc.info.checksum
    && acc.receipt.size == |acc.content| == acc.info.size
    && w.cleaner != Some(o)
    && (o in w.uploads ==> w.uploads[o] == acc.content)
    && (o in w.infos ==> w.infos[o] == acc.info)
    && (o !in w.t.artifacts ==> o in w.uploads && o in w.infos)
    && (o in w.t.artifacts ==> RowMatches(w.t.artifacts[o], o, acc))
    && (o in w.t.artifacts && !Released(w.t, o) ==> o in w.uploads)
  }

  ghost predicate ObjectOk(w: World, o: string) {
    && (o in w.receipts ==> o in w.ledger)
    && (o in w.t.artifacts ==> o in w.ledger)
    && (o in w.ledger ==> AcceptedOk(w, o))
    && (o !in w.ledger && o in w.infos ==> Admissible(o, w.infos[o]))
  }

  ghost predicate KnownMember(w: World, p: PackageId, i: nat)
    requires i < |p.members|
  {
    && p.members[i].objectId in w.ledger
    && |w.ledger[p.members[i].objectId].content| == p.members[i].size
  }

  /** The accepted bytes of the first n original members, one after the other. */
  ghost function OriginalBytes(ledger: map<string, Accepted>, p: PackageId, n: nat): Bytes
    requires n <= |p.members|
  {
    if n == 0 then []
    else
      OriginalBytes(ledger, p, n - 1)
      + (if p.members[n - 1].objectId in ledger then ledger[p.members[n - 1].objectId].content else [])
  }

  ghost function PackageBytes(ledger: map<string, Accepted>, p: PackageId): Bytes {
    OriginalBytes(ledger, p, |p.members|)
  }

  /** A sealed package's files are durable and hold its members, until every delivery is done. */
  ghost predicate FilesOk(w: World, p: PackageId) {
    p in w.t.packages ==>
      && (forall i {:trigger KnownMember(w, p, i)} :: 0 <= i < |p.members| ==> KnownMember(w, p, i))
      && (w.t.packages[p].state.Sealed? ==>
            && (p in w.payloads ==> p in w.durablePayloads && w.payloads[p] == PackageBytes(w.ledger, p))
            && (p in w.manifests ==> p in w.durableManifests)
            && (p !in w.payloads || p !in w.manifests ==> AllDelivered(w.t, p)))
  }

  /** Retention of one sink is over. */
  ghost predicate RetentionOver(w: World, k: DeliveryKey)
    requires k in w.t.deliveries
  {
    k in w.deliveredNs && w.deliveredNs[k] + w.t.deliveries[k].plan.retentionNanos <= w.now
  }

  ghost predicate PackerOk(w: World) {
    match w.packer
    case AtRest => true
    case Materializing(p) => IsBuilding(w.t, p)
    case Merged(p, bytes) => IsBuilding(w.t, p) && bytes == PackageBytes(w.ledger, p)
    case PayloadPublished(p, bytes) =>
      IsBuilding(w.t, p) && bytes == PackageBytes(w.ledger, p) && p in w.payloads && w.payloads[p] == bytes
    case BothPublished(p) =>
      && IsBuilding(w.t, p)
      && p in w.payloads && w.payloads[p] == PackageBytes(w.ledger, p) && p in w.durablePayloads
      && p in w.manifests
    case Broken(p) => IsBuilding(w.t, p)
    case RemovingSource(o) => Released(w.t, o)
    case Unlinking(p) =>
      && Unpurged(w.t, p) && AllDelivered(w.t, p)
      && w.t.packages[p].purgeAfter.Some? && w.t.packages[p].purgeAfter.value <= Unix(w.now)
  }

  /** Every delivery's deadline is within its package's purge deadline. */
  ghost predicate DeadlineOk(w: World, k: DeliveryKey) {
    k in w.t.deliveries && w.t.deliveries[k].state.Delivered? ==>
      && k in w.deliveredNs && w.deliveredNs[k] <= w.now
      && w.t.deliveries[k].deliveredAt == Some(Unix(w.deliveredNs[k]))
      && k.packageId in w.t.packages && w.t.packages[k.packageId].purgeAfter.Some?
      && w.t.packages[k.packageId].purgeAfter.value >= UnixCeil(w.deliveredNs[k] + w.t.deliveries[k].plan.retentionNanos)
  }

  ghost predicate ObjectsInv(w: World) {
    forall o {:trigger ObjectOk(w, o)} :: ObjectOk(w, o)
  }

  ghost predicate FilesInv(w: World) {
    forall p {:trigger FilesOk(w, p)} :: FilesOk(w, p)
  }

  ghost predicate DeadlinesInv(w: World) {
    forall k {:trigger DeadlineOk(w, k)} :: DeadlineOk(w, k)
  }

  ghost predicate DrainsInv(cfg: Config, t: Tables) {
    forall project {:trigger DrainingOk(t, project, cfg[project])} :: project in cfg ==> DrainingOk(t, project, cfg[project])
  }

  ghost predicate WorldInv(cfg: Config, w: World) {
    Inv(w.t) && ObjectsInv(w) && FilesInv(w) && PackerOk(w) && DeadlinesInv(w) && DrainsInv(cfg, w.t)
  }

  // ---------- Bytes ----------

  lemma {:induction false} OriginalBytesLength(w: World, p: PackageId, n: nat)
    requires n <= |p.members| && p in w.t.packages && FilesOk(w, p)
    ensures |OriginalBytes(w.ledger, p, n)| == Offset(p, n)
  {
    if n > 0 {
      assert KnownMember(w, p, n - 1);
      OriginalBytesLength(w, p, n - 1);
    }
  }

  /** Slicing the package at a member's offset and size gives back the accepted artifact. */
  lemma {:induction false} OriginalSlice(w: World, p: PackageId, i: nat, n: nat)
    requires i < n <= |p.members| && p in w.t.packages && FilesOk(w, p)
    ensures KnownMember(w, p, i)
    ensures 0 <= Offset(p, i) <= Offset(p, i) + p.members[i].size <= |OriginalBytes(w.ledger, p, n)|
    ensures OriginalBytes(w.ledger, p, n)[Offset(p, i)..Offset(p, i) + p.members[i].size]
         == w.ledger[p.members[i].objectId].content
  {
    assert KnownMember(w, p, i);
    OriginalBytesLength(w, p, n - 1);
    OriginalBytesLength(w, p, i);
    if i < n - 1 {
      OriginalSlice(w, p, i, n - 1);
    }
  }

  /** Offsets tile the payload: each member starts where the one before it ends. */
  lemma OffsetsTile(p: PackageId, i: nat)
    requires i < |p.members|
    ensures Offset(p, i + 1) == Offset(p, i) + p.members[i].size
  {
  }

  lemma {:induction false} JoinedIsOriginal(w: World, p: PackageId, n: nat)
    requires n <= |p.members| && AllPresent(w.uploads, p)
    requires ObjectsInv(w) && p in w.t.packages && FilesOk(w, p)
    ensures Joined(w.uploads, p, n) == OriginalBytes(w.ledger, p, n)
  {
    if n > 0 {
      JoinedIsOriginal(w, p, n - 1);
      assert KnownMember(w, p, n - 1);
      assert ObjectOk(w, p.members[n - 1].objectId);
    }
  }

  lemma {:induction false} OriginalBytesGrow(a: map<string, Accepted>, b: map<string, Accepted>, p: PackageId, n: nat)
    requires n <= |p.members|
    requires forall i :: 0 <= i < n ==> p.members[i].objectId in a
    requires forall o :: o in a ==> o in b && b[o] == a[o]
    ensures OriginalBytes(a, p, n) == OriginalBytes(b, p, n)
  {
    if n > 0 {
      OriginalBytesGrow(a, b, p, n - 1);
    }
  }

  // ---------- Steps that leave the tables alone ----------

  lemma UploadStepKeeps(cfg: Config, w: World, a: Action)
    requires a.Create? || a.Append?
    requires WorldInv(cfg, w) && ReceiverEnabled(w, a)
    ensures WorldInv(cfg, ReceiverApply(w, a))
  {
    var v := ReceiverApply(w, a);
    forall o ensures ObjectOk(v, o) {
      assert ObjectOk(w, o);
    }
    SameFiles(w, v);
    SameDeadlines(w, v);
  }

  lemma LockStepKeeps(cfg: Config, w: World, a: Action)
    requires a.LockForCleanup? || a.Unlock? || a.ReceiverCrash?
    requires WorldInv(cfg, w) && ReceiverEnabled(w, a)
    ensures WorldInv(cfg, ReceiverApply(w, a))
  {
    var v := ReceiverApply(w, a);
    forall o ensures ObjectOk(v, o) {
      assert ObjectOk(w, o);
    }
    SameFiles(w, v);
    SameDeadlines(w, v);
  }

  lemma CleanStepKeeps(cfg: Config, w: World, a: Action)
    requires a.CleanData? || a.CleanInfo?
    requires WorldInv(cfg, w) && ReceiverEnabled(w, a)
    ensures WorldInv(cfg, ReceiverApply(w, a))
  {
    var v := ReceiverApply(w, a);
    forall o ensures ObjectOk(v, o) {
      assert ObjectOk(w, o);
    }
    SameFiles(w, v);
    SameDeadlines(w, v);
  }

  lemma SameFiles(w: World, v: World)
    requires FilesInv(w)
    requires v.t == w.t && v.ledger == w.ledger && v.payloads == w.payloads && v.manifests == w.manifests
    requires v.durablePayloads == w.durablePayloads && v.durableManifests == w.durableManifests
    ensures FilesInv(v)
  {
    forall p ensures FilesOk(v, p) {
      assert FilesOk(w, p);
      if p in w.t.packages {
        forall i | 0 <= i < |p.members| ensures KnownMember(v, p, i) {
          assert KnownMember(w, p, i);
        }
      }
    }
  }

  lemma SameDeadlines(w: World, v: World)
    requires DeadlinesInv(w) && v.t == w.t && v.deliveredNs == w.deliveredNs && w.now <= v.now
    ensures DeadlinesInv(v)
  {
    forall k ensures DeadlineOk(v, k) {
      assert DeadlineOk(w, k);
    }
  }

  lemma SameObjects(w: World, v: World)
    requires ObjectsInv(w)
    requires v.t == w.t && v.ledger == w.ledger && v.receipts == w.receipts && v.cleaner == w.cleaner
    requires v.uploads == w.uploads && v.infos == w.infos
    ensures ObjectsInv(v)
  {
    forall o ensures ObjectOk(v, o) {
      assert ObjectOk(w, o);
    }
  }

  lemma TickKeeps(cfg: Config, w: World, a: Action)
    requires a.Tick?
    requires WorldInv(cfg, w) && ReceiverEnabled(w, a)
    ensures WorldInv(cfg, ReceiverApply(w, a))
  {
    var v := ReceiverApply(w, a);
    SameObjects(w, v);
    SameFiles(w, v);
    SameDeadlines(w, v);
    UnixMonotone(w.now, a.to);
  }

  lemma PublishReceiptKeeps(cfg: Config, w: World, a: Action)
    requires a.PublishReceipt?
    requires WorldInv(cfg, w) && ReceiverEnabled(w, a)
    ensures WorldInv(cfg, ReceiverApply(w, a))
  {
    var v := ReceiverApply(w, a);
    assert ObjectOk(w, a.o);
    assert a.o !in w.ledger;
    forall x ensures ObjectOk(v, x) {
      assert ObjectOk(w, x);
    }
    forall p ensures FilesOk(v, p) {
      assert FilesOk(w, p);
      if p in w.t.packages {
        forall i | 0 <= i < |p.members| ensures KnownMember(v, p, i) && p.members[i].objectId in w.ledger {
          assert KnownMember(w, p, i);
        }
        OriginalBytesGrow(w.ledger, v.ledger, p, |p.members|);
      }
    }
    SameDeadlines(w, v);
    PackerGrows(w, v);
  }

  lemma PackerGrows(w: World, v: World)
    requires PackerOk(w) && FilesInv(w)
    requires v == w.(receipts := v.receipts, ledger := v.ledger)
    requires forall o :: o in w.ledger ==> o in v.ledger && v.ledger[o] == w.ledger[o]
    ensures PackerOk(v)
  {
    if w.packer.Merged? || w.packer.PayloadPublished? || w.packer.BothPublished? {
      var p := w.packer.p;
      assert FilesOk(w, p);
      forall i | 0 <= i < |p.members| ensures p.members[i].objectId in w.ledger {
        assert KnownMember(w, p, i);
      }
      OriginalBytesGrow(w.ledger, v.ledger, p, |p.members|);
    }
  }

  lemma CrashKeeps(cfg: Config, w: World, a: Action)
    requires a.DeliverCrash? || a.PackagePowerLoss?
    requires WorldInv(cfg, w) && DeliveryEnabled(w, a)
    ensures WorldInv(cfg, DeliveryApply(w, a))
  {
    var v := DeliveryApply(w, a);
    forall o ensures ObjectOk(v, o) {
      assert ObjectOk(w, o);
    }
    forall p ensures FilesOk(v, p) {
      assert FilesOk(w, p);
      if p in w.t.packages {
        forall i | 0 <= i < |p.members| ensures KnownMember(v, p, i) {
          assert KnownMember(w, p, i);
        }
      }
    }
    SameDeadlines(w, v);
  }

  /** The steps from the merge to the second rename touch only the files of the package being built. */
  lemma BuildStepKeeps(cfg: Config, w: World, a: Action)
    requires a.Merge? || a.PublishPayload? || a.PublishManifest? || a.BuildFails?
    requires WorldInv(cfg, w) && BuildEnabled(cfg, w, a)
    ensures WorldInv(cfg, BuildApply(cfg, w, a))
  {
    var v := BuildApply(cfg, w, a);
    if a.Merge? {
      assert FilesOk(w, w.packer.p);
      JoinedIsOriginal(w, w.packer.p, |w.packer.p.members|);
    }
    SameObjects(w, v);
    forall p ensures FilesOk(v, p) {
      assert FilesOk(w, p);
      if p in w.t.packages {
        forall i | 0 <= i < |p.members| ensures KnownMember(v, p, i) {
          assert KnownMember(w, p, i);
        }
      }
    }
    SameDeadlines(w, v);
  }

  /** Source purge removes the upload of a released object only. */
  lemma RemoveKeeps(cfg: Config, w: World, a: Action)
    requires a.PickSource? || a.RemoveData? || a.RemoveInfo?
    requires WorldInv(cfg, w) && PurgeEnabled(w, a)
    ensures WorldInv(cfg, PurgeApply(w, a))
  {
    var v := PurgeApply(w, a);
    forall o ensures ObjectOk(v, o) {
      assert ObjectOk(w, o);
    }
    SameFiles(w, v);
    SameDeadlines(w, v);
  }

  lemma UnlinkKeeps(cfg: Config, w: World, a: Action)
    requires a.PickPurge? || a.UnlinkPayload? || a.UnlinkManifest?
    requires WorldInv(cfg, w) && PurgeEnabled(w, a)
    ensures WorldInv(cfg, PurgeApply(w, a))
  {
    var v := PurgeApply(w, a);
    if a.PickPurge? {
      assert ColumnsOk(w.t, a.p);
    }
    SameObjects(w, v);
    forall p ensures FilesOk(v, p) {
      assert FilesOk(w, p);
      if p in w.t.packages {
        forall i | 0 <= i < |p.members| ensures KnownMember(v, p, i) {
          assert KnownMember(w, p, i);
        }
      }
    }
    SameDeadlines(w, v);
  }

  // ---------- Steps of the tables ----------

  lemma EvolvedObjects(w: World, v: World)
    requires ObjectsInv(w) && Evolves(w.t, v.t)
    requires v.t.artifacts.Keys == w.t.artifacts.Keys
    requires v.ledger == w.ledger && v.receipts == w.receipts && v.cleaner == w.cleaner
    requires v.uploads == w.uploads && v.infos == w.infos
    ensures ObjectsInv(v)
  {
    forall o ensures ObjectOk(v, o) {
      assert ObjectOk(w, o);
      assert ArtifactEvolves(w.t, v.t, o);
    }
  }

  lemma EvolvedFiles(w: World, v: World, p: PackageId)
    requires FilesOk(w, p) && Evolves(w.t, v.t)
    requires p in w.t.packages
    requires p in v.t.packages && v.t.packages[p].state.Sealed? ==> w.t.packages[p].state.Sealed?
    requires v.ledger == w.ledger && v.payloads == w.payloads && v.manifests == w.manifests
    requires v.durablePayloads == w.durablePayloads
    requires p in w.durableManifests ==> p in v.durableManifests
    ensures FilesOk(v, p)
  {
    forall i | 0 <= i < |p.members| ensures KnownMember(v, p, i) {
      assert KnownMember(w, p, i);
    }
    if AllDelivered(w.t, p) {
      StaysDelivered(w.t, v.t, p);
    }
  }

  lemma EvolvedAllFiles(w: World, v: World)
    requires FilesInv(w) && Evolves(w.t, v.t)
    requires v.t.packages.Keys == w.t.packages.Keys
    requires forall p :: p in w.t.packages && v.t.packages[p].state.Sealed? ==> w.t.packages[p].state.Sealed?
    requires v.ledger == w.ledger && v.payloads == w.payloads && v.manifests == w.manifests
    requires v.durablePayloads == w.durablePayloads && v.durableManifests == w.durableManifests
    ensures FilesInv(v)
  {
    forall p ensures FilesOk(v, p) {
      assert FilesOk(w, p);
      if p in w.t.packages {
        EvolvedFiles(w, v, p);
      }
    }
  }

  lemma EvolvedDeadline(w: World, v: World, k: DeliveryKey)
    requires DeadlineOk(w, k) && Evolves(w.t, v.t)
    requires v.now == w.now
    requires k in w.t.deliveries && w.t.deliveries[k].state.Delivered?
    requires k in w.deliveredNs ==> k in v.deliveredNs && v.deliveredNs[k] == w.deliveredNs[k]
    ensures DeadlineOk(v, k)
  {
    assert DeliveryEvolves(w.t, v.t, k) && PackageEvolves(w.t, v.t, k.packageId);
  }

  lemma EvolvedDeadlines(w: World, v: World)
    requires DeadlinesInv(w) && Evolves(w.t, v.t)
    requires v.now == w.now && v.deliveredNs == w.deliveredNs
    requires forall k :: k in v.t.deliveries && v.t.deliveries[k].state.Delivered? ==>
      k in w.t.deliveries && w.t.deliveries[k].state.Delivered?
    ensures DeadlinesInv(v)
  {
    forall k ensures DeadlineOk(v, k) {
      assert DeadlineOk(w, k);
      if k in v.t.deliveries && v.t.deliveries[k].state.Delivered? {
        EvolvedDeadline(w, v, k);
      }
    }
  }

  /** A statement that leaves the candidates and the flags alone. */
  lemma SameDrains(cfg: Config, t: Tables, u: Tables)
    requires Inv(t) && Inv(u) && DrainsInv(cfg, t)
    requires u.draining == t.draining
    requires forall project, o :: IsCandidate(t, project, o) ==>
      IsCandidate(u, project, o) && u.artifacts[o].size == t.artifacts[o].size
    ensures DrainsInv(cfg, u)
  {
    forall project | project in cfg ensures DrainingOk(u, project, cfg[project]) {
      assert DrainingOk(t, project, cfg[project]);
      DrainingKept(t, u, project, cfg[project]);
    }
  }

  lemma IndexKeeps(cfg: Config, w: World, a: Action)
    requires (a.Index? || a.Discover?)
    requires WorldInv(cfg, w) && ReceiverEnabled(w, a)
    ensures WorldInv(cfg, ReceiverApply(w, a))
  {
    var v := ReceiverApply(w, a);
    assert ObjectOk(w, a.o);
    AdmissibleHasNoNul(a.o, w.ledger[a.o].info);
    AddArtifactKeeps(w.t, a.o, RowOf(a.o, w.ledger[a.o].info, w.receipts[a.o]));
    AddArtifactEvolves(w.t, a.o, RowOf(a.o, w.ledger[a.o].info, w.receipts[a.o]));
    assert v.t == AddArtifact(w.t, a.o, RowOf(a.o, w.ledger[a.o].info, w.receipts[a.o]));
    forall o ensures ObjectOk(v, o) {
      assert ObjectOk(w, o);
      assert ArtifactEvolves(w.t, v.t, o);
    }
    EvolvedAllFiles(w, v);
    EvolvedDeadlines(w, v);
    SameDrains(cfg, w.t, v.t);
  }

  /** A statement on tables that neither seals nor reserves, beside an undisturbed or resting packer. */
  lemma TablesStepKeeps(cfg: Config, w: World, v: World)
    requires WorldInv(cfg, w)
    requires v == w.(t := v.t, packer := v.packer)
    requires Inv(v.t) && Evolves(w.t, v.t) && DrainsInv(cfg, v.t) && PackerOk(v)
    requires v.t.artifacts.Keys == w.t.artifacts.Keys && v.t.packages.Keys == w.t.packages.Keys
    requires forall p :: p in w.t.packages && v.t.packages[p].state.Sealed? ==> w.t.packages[p].state.Sealed?
    requires forall k :: k in v.t.deliveries && v.t.deliveries[k].state.Delivered? ==>
      k in w.t.deliveries && w.t.deliveries[k].state.Delivered?
    ensures WorldInv(cfg, v)
  {
    EvolvedObjects(w, v);
    EvolvedAllFiles(w, v);
    EvolvedDeadlines(w, v);
  }

  /** One that leaves artifacts, packages and flags alone. */
  lemma DeliveryTableStepKeeps(cfg: Config, w: World, v: World)
    requires WorldInv(cfg, w)
    requires v == w.(t := v.t, packer := v.packer)
    requires v.packer == w.packer || v.packer.AtRest?
    requires v.t == w.t.(deliveries := v.t.deliveries)
    requires Inv(v.t) && Evolves(w.t, v.t)
    requires forall k :: k in v.t.deliveries && v.t.deliveries[k].state.Delivered? ==>
      k in w.t.deliveries && w.t.deliveries[k].state.Delivered?
    ensures WorldInv(cfg, v)
  {
    SameDrains(cfg, w.t, v.t);
    PackerUndisturbed(w, v);
    TablesStepKeeps(cfg, w, v);
  }

  lemma ClaimStepKeeps(cfg: Config, w: World, a: Action)
    requires a.ClaimDelivery?
    requires WorldInv(cfg, w) && DeliveryEnabled(w, a)
    ensures WorldInv(cfg, DeliveryApply(w, a))
  {
    ClaimKeeps(w.t, a.k, Unix(w.now));
    DeliveryStatementsEvolve(w.t, a.k);
    DeliveryTableStepKeeps(cfg, w, DeliveryApply(w, a));
  }

  lemma FailStepKeeps(cfg: Config, w: World, a: Action)
    requires a.Fail?
    requires WorldInv(cfg, w) && DeliveryEnabled(w, a)
    ensures WorldInv(cfg, DeliveryApply(w, a))
  {
    MarkRetryKeeps(w.t, a.k, a.message, Unix(w.now + Backoff(w.t.deliveries[a.k].attempts)));
    DeliveryStatementsEvolve(w.t, a.k);
    DeliveryTableStepKeeps(cfg, w, DeliveryApply(w, a));
  }

  lemma ProgressStepKeeps(cfg: Config, w: World, a: Action)
    requires a.Progress?
    requires WorldInv(cfg, w) && DeliveryEnabled(w, a)
    ensures WorldInv(cfg, DeliveryApply(w, a))
  {
    MarkProgressKeeps(w.t, a.k, a.snapshot);
    DeliveryStatementsEvolve(w.t, a.k);
    DeliveryTableStepKeeps(cfg, w, DeliveryApply(w, a));
  }

  lemma RestartKeeps(cfg: Config, w: World, a: Action)
    requires a.Restart?
    requires WorldInv(cfg, w) && DeliveryEnabled(w, a)
    ensures WorldInv(cfg, DeliveryApply(w, a))
  {
    RecoverKeeps(w.t, Unix(w.now));
    RecoverEvolves(w.t, Unix(w.now));
    DeliveryTableStepKeeps(cfg, w, DeliveryApply(w, a));
  }

  /** Delivery steps do not disturb the packaging goroutine. */
  lemma PackerUndisturbed(w: World, v: World)
    requires PackerOk(w) && Evolves(w.t, v.t)
    requires v == w.(t := v.t, packer := v.packer, deliveredNs := v.deliveredNs)
    requires v.packer == w.packer || v.packer.AtRest?
    requires v.t.packages.Keys == w.t.packages.Keys
    requires forall p :: p in w.t.packages ==>
      && v.t.packages[p].state == w.t.packages[p].state
      && v.t.packages[p].purgedAt == w.t.packages[p].purgedAt
      && (w.packer == Unlinking(p) ==> v.t.packages[p].purgeAfter == w.t.packages[p].purgeAfter)
    ensures PackerOk(v)
  {
    match v.packer {
      case AtRest =>
      case Materializing(p) =>
      case Merged(p, bytes) =>
      case PayloadPublished(p, bytes) =>
      case BothPublished(p) =>
      case Broken(p) =>
      case RemovingSource(o) =>
        assert ArtifactEvolves(w.t, v.t, o);
      case Unlinking(p) =>
        StaysDelivered(w.t, v.t, p);
    }
  }

  lemma FinishDeadlines(w: World, v: World, k: DeliveryKey)
    requires DeadlinesInv(w) && InDelivery(w.t, k) && Evolves(w.t, v.t) && DeliveryOk(w.t, k)
    requires v.now == w.now && v.deliveredNs == w.deliveredNs[k := w.now]
    requires v.t == MarkDelivered(w.t, k, w.t.deliveries[k].plan.identifier, Unix(w.now),
                                  UnixCeil(w.now + w.t.deliveries[k].plan.retentionNanos))
    ensures DeadlinesInv(v)
  {
    forall x ensures DeadlineOk(v, x) {
      assert DeadlineOk(w, x);
      if x != k && x in w.t.deliveries && w.t.deliveries[x].state.Delivered? {
        EvolvedDeadline(w, v, x);
      }
    }
  }

  lemma FinishKeeps(cfg: Config, w: World, a: Action)
    requires a.Finish?
    requires WorldInv(cfg, w) && DeliveryEnabled(w, a)
    ensures WorldInv(cfg, DeliveryApply(w, a))
  {
    var v := DeliveryApply(w, a);
    var d := w.t.deliveries[a.k];
    MarkDeliveredKeeps(w.t, a.k, d.plan.identifier, Unix(w.now), UnixCeil(w.now + d.plan.retentionNanos));
    MarkDeliveredEvolves(w.t, a.k, d.plan.identifier, Unix(w.now), UnixCeil(w.now + d.plan.retentionNanos));
    assert DeliveryOk(w.t, a.k);
    FinishDeadlines(w, v, a.k);
    EvolvedObjects(w, v);
    EvolvedAllFiles(w, v);
    SameDrains(cfg, w.t, v.t);
    PackerUndisturbed(w, v);
  }

  // ---------- Steps of the packaging goroutine on the tables ----------

  lemma ClaimBuildKeeps(cfg: Config, w: World, a: Action)
    requires a.ClaimBuild?
    requires WorldInv(cfg, w) && BuildEnabled(cfg, w, a)
    ensures WorldInv(cfg, BuildApply(cfg, w, a))
  {
    var v := BuildApply(cfg, w, a);
    StartBuildKeeps(w.t, a.p);
    PackageStatementsEvolve(w.t, a.p);
    SameDrains(cfg, w.t, v.t);
    TablesStepKeeps(cfg, w, v);
  }

  lemma BuildRetryKeeps(cfg: Config, w: World, a: Action)
    requires a.BuildRetry?
    requires WorldInv(cfg, w) && BuildEnabled(cfg, w, a)
    ensures WorldInv(cfg, BuildApply(cfg, w, a))
  {
    var v := BuildApply(cfg, w, a);
    MarkBuildRetryKeeps(w.t, w.packer.p, a.message, BuildRetryAt(w));
    PackageStatementsEvolve(w.t, w.packer.p);
    SameDrains(cfg, w.t, v.t);
    TablesStepKeeps(cfg, w, v);
  }

  lemma PackagePurgedKeeps(cfg: Config, w: World, a: Action)
    requires a.PackagePurged?
    requires WorldInv(cfg, w) && PurgeEnabled(w, a)
    ensures WorldInv(cfg, PurgeApply(w, a))
  {
    var v := PurgeApply(w, a);
    MarkPurgedKeeps(w.t, w.packer.p, Unix(w.now));
    PackageStatementsEvolve(w.t, w.packer.p);
    SameDrains(cfg, w.t, v.t);
    TablesStepKeeps(cfg, w, v);
  }

  /** A retry never moves a package's purge before its deadline. */
  lemma PurgeRetryKeeps(cfg: Config, w: World, a: Action)
    requires a.PurgeRetry?
    requires WorldInv(cfg, w) && PurgeEnabled(w, a)
    ensures WorldInv(cfg, PurgeApply(w, a))
  {
    var v := PurgeApply(w, a);
    UnixMonotone(w.now, w.now + MINUTE);
    MarkPurgeRetryKeeps(w.t, w.packer.p, a.message, UnixCeil(w.now + MINUTE));
    PackageStatementsEvolve(w.t, w.packer.p);
    SameDrains(cfg, w.t, v.t);
    TablesStepKeeps(cfg, w, v);
  }

  lemma SealStepKeeps(cfg: Config, w: World, a: Action)
    requires a.SealIt?
    requires WorldInv(cfg, w) && BuildEnabled(cfg, w, a)
    ensures WorldInv(cfg, BuildApply(cfg, w, a))
  {
    var v := BuildApply(cfg, w, a);
    var p := w.packer.p;
    SealKeeps(w.t, p, Offset(p, |p.members|), a.checksum, a.manifestChecksum, Unix(w.now));
    PackageStatementsEvolve(w.t, p);
    EvolvedObjects(w, v);
    forall q ensures FilesOk(v, q) {
      assert FilesOk(w, q);
      if q == p {
        forall i | 0 <= i < |p.members| ensures KnownMember(v, p, i) {
          assert KnownMember(w, p, i);
        }
      } else if q in w.t.packages {
        EvolvedFiles(w, v, q);
      }
    }
    EvolvedDeadlines(w, v);
    SameDrains(cfg, w.t, v.t);
  }

  lemma SourceRowStepKeeps(cfg: Config, w: World, v: World, o: string)
    requires WorldInv(cfg, w) && Inv(v.t)
    requires v == w.(t := v.t, packer := AtRest)
    requires o in w.t.artifacts && o in v.t.artifacts
    requires v.t == w.t.(artifacts := w.t.artifacts[o := v.t.artifacts[o]])
    requires SameMembership(w.t.artifacts[o], v.t.artifacts[o]) && SameContent(w.t.artifacts[o], v.t.artifacts[o])
    ensures WorldInv(cfg, v)
  {
    SourceStatementEvolves(w.t, v.t);
    SameDrains(cfg, w.t, v.t);
    TablesStepKeeps(cfg, w, v);
  }

  lemma SourcePurgedKeeps(cfg: Config, w: World, a: Action)
    requires a.SourcePurged?
    requires WorldInv(cfg, w) && PurgeEnabled(w, a)
    ensures WorldInv(cfg, PurgeApply(w, a))
  {
    MarkSourcePurgedKeeps(w.t, w.packer.o, Unix(w.now));
    SourceStepKeeps(cfg, w, PurgeApply(w, a));
  }

  lemma SourceRetryKeeps(cfg: Config, w: World, a: Action)
    requires a.SourceRetry?
    requires WorldInv(cfg, w) && PurgeEnabled(w, a)
    ensures WorldInv(cfg, PurgeApply(w, a))
  {
    MarkSourcePurgeRetryKeeps(w.t, w.packer.o, a.message, UnixCeil(w.now + MINUTE));
    SourceStepKeeps(cfg, w, PurgeApply(w, a));
  }

  lemma SourceStepKeeps(cfg: Config, w: World, v: World)
    requires WorldInv(cfg, w) && Inv(v.t) && w.packer.RemovingSource?
    requires v == w.(t := v.t, packer := AtRest)
    requires v.t == w.t || (
      && w.packer.o in v.t.artifacts
      && v.t == w.t.(artifacts := w.t.artifacts[w.packer.o := v.t.artifacts[w.packer.o]])
      && SameMembership(w.t.artifacts[w.packer.o], v.t.artifacts[w.packer.o])
      && SameContent(w.t.artifacts[w.packer.o], v.t.artifacts[w.packer.o]))
    ensures WorldInv(cfg, v)
  {
    if v.t == w.t {
      SameEvolves(w.t, v.t);
      TablesStepKeeps(cfg, w, v);
    } else {
      SourceRowStepKeeps(cfg, w, v, w.packer.o);
    }
  }

  lemma IsolateStepKeeps(cfg: Config, w: World, a: Action)
    requires a.IsolateMembers?
    requires WorldInv(cfg, w) && BuildEnabled(cfg, w, a)
    ensures WorldInv(cfg, BuildApply(cfg, w, a))
  {
    var v := BuildApply(cfg, w, a);
    IsolateKeeps(w.t, w.packer.p, a.invalid);
    IsolateEvolves(w.t, w.packer.p, a.invalid);
    IsolateDrains(cfg, w.t, w.packer.p, a.invalid);
    TablesStepKeeps(cfg, w, v);
  }

  lemma IsolateDrains(cfg: Config, t: Tables, p: PackageId, invalid: map<string, string>)
    requires Inv(t) && DrainsInv(cfg, t) && IsBuilding(t, p) && p.packager.MergePackager?
    requires invalid.Keys != {} && invalid.Keys <= MembersOf(t, p)
    ensures
      var u := Isolate(t, p, invalid);
      DrainsInv(cfg, u) && u.artifacts.Keys == t.artifacts.Keys
  {
    IsolateRows(t, p, invalid);
    IsolateKeeps(t, p, invalid);
    SameDrains(cfg, t, Isolate(t, p, invalid));
  }

  /** What a call does to the tables: nothing but flags, or one new building package. */
  ghost predicate ReserveStep(t: Tables, u: Tables, result: Result) {
    && Evolves(t, u)
    && u.artifacts.Keys == t.artifacts.Keys
    && (result.Reserved? ==>
          && u.packages.Keys == t.packages.Keys + {result.packageId}
          && IsBuilding(u, result.packageId) && AllKnown(t, result.packageId)
          && (forall i :: 0 <= i < |result.packageId.members| ==>
                t.artifacts[result.packageId.members[i].objectId].size == result.packageId.members[i].size))
    && (!result.Reserved? ==> u.packages == t.packages)
    && (forall p :: p in t.packages ==> p in u.packages && u.packages[p] == t.packages[p])
    && (forall k :: k in u.deliveries && u.deliveries[k].state.Delivered? ==>
          k in t.deliveries && t.deliveries[k].state.Delivered?)
  }

  lemma ReservationStep(t0: Tables, t: Tables, p: PackageId, plan: Plan, keep: bool, now: int)
    requires t == t0.(draining := t.draining) && Inv(t) && Selectable(t, p)
    ensures ReserveStep(t0, InsertReservation(t, p, plan, keep, now), Reserved(p))
  {
    ReserveTables(t, p, plan, keep, now);
    ReservationEvolves(t, p, plan, keep, now);
    EvolvesFromEnsured(t0, t, InsertReservation(t, p, plan, keep, now));
  }

  lemma ReserveStepTables(cfg: Config, w: World, project: string, plan: Option<Plan>, fault: bool)
    requires WorldInv(cfg, w) && w.packer.AtRest? && project in cfg
    ensures
      var (u, result) := ReservePackage(w.t, project, cfg[project], Always(plan), w.now, fault);
      Inv(u) && DrainsInv(cfg, u) && ReserveStep(w.t, u, result)
  {
    var pack := cfg[project];
    var (u, result) := ReservePackage(w.t, project, pack, Always(plan), w.now, fault);
    ReservePackageKeeps(w.t, project, pack, Always(plan), w.now, fault);
    ReserveStepDrains(cfg, w.t, project, plan, w.now, fault);
    if result.Reserved? {
      var t := EnsureProject(w.t, project);
      ReservedPackage(w.t, project, pack, Always(plan), w.now, fault);
      ReservationStep(w.t, t, result.packageId, plan.value, Choose(t, project, pack, w.now).draining, Unix(w.now));
    } else {
      SameEvolves(w.t, u);
    }
  }

  lemma EvolvesFromEnsured(t0: Tables, t: Tables, u: Tables)
    requires t == t0.(draining := t.draining) && Evolves(t, u)
    ensures Evolves(t0, u)
  {
    forall o ensures ArtifactEvolves(t0, u, o) && MemberEvolves(t0, u, o) {
      assert ArtifactEvolves(t, u, o) && MemberEvolves(t, u, o);
    }
    forall p ensures PackageEvolves(t0, u, p) {
      assert PackageEvolves(t, u, p);
    }
    forall k ensures DeliveryEvolves(t0, u, k) {
      assert DeliveryEvolves(t, u, k);
    }
  }

  lemma ReserveStepDrains(cfg: Config, t: Tables, project: string, plan: Option<Plan>, now: int, fault: bool)
    requires Inv(t) && DrainsInv(cfg, t) && project in cfg
    ensures DrainsInv(cfg, ReservePackage(t, project, cfg[project], Always(plan), now, fault).0)
  {
    var u := ReservePackage(t, project, cfg[project], Always(plan), now, fault).0;
    ReservePackageKeeps(t, project, cfg[project], Always(plan), now, fault);
    forall other | other in cfg ensures DrainingOk(u, other, cfg[other]) {
      assert DrainingOk(t, other, cfg[other]);
      if other == project {
        ReservePackageKeepsDraining(t, project, cfg[project], Always(plan), now, fault);
      } else {
        OtherProjectUntouched(t, project, cfg[project], plan, now, fault, other);
        DrainingKept(t, u, other, cfg[other]);
      }
    }
  }

  ghost predicate Untouched(t: Tables, u: Tables, other: string) {
    && (other in u.draining <==> other in t.draining)
    && (other in u.draining ==> u.draining[other] == t.draining[other])
    && (forall o :: IsCandidate(t, other, o) ==> IsCandidate(u, other, o) && u.artifacts[o].size == t.artifacts[o].size)
  }

  lemma UntouchedTransitive(t: Tables, u: Tables, v: Tables, other: string)
    requires Untouched(t, u, other) && Untouched(u, v, other)
    ensures Untouched(t, v, other)
  {
  }

  lemma OtherProjectUntouched(t0: Tables, project: string, pack: Packaging, plan: Option<Plan>, now: int, fault: bool,
                              other: string)
    requires Inv(t0) && other != project
    ensures Untouched(t0, ReservePackage(t0, project, pack, Always(plan), now, fault).0, other)
  {
    var t := EnsureProject(t0, project);
    var (u, result) := ReservePackage(t0, project, pack, Always(plan), now, fault);
    if !result.Reserved? {
      UnreservedFlags(t0, project, pack, Always(plan), now, fault);
    } else {
      assert Untouched(t0, t, other);
      ReservedPackage(t0, project, pack, Always(plan), now, fault);
      OtherCandidatesUntouched(t, result.packageId, plan.value, Choose(t, project, pack, now).draining, Unix(now), other);
      UntouchedTransitive(t0, t, u, other);
    }
  }

  lemma OtherCandidatesUntouched(t: Tables, p: PackageId, plan: Plan, keep: bool, now: int, other: string)
    requires Inv(t) && Selectable(t, p) && p.project != other && p.project in t.draining
    ensures
      Untouched(t, InsertReservation(t, p, plan, keep, now), other)
  {
    var u := InsertReservation(t, p, plan, keep, now);
    ReserveFlag(t, p, plan, keep, now);
    forall o | IsCandidate(t, other, o) ensures IsCandidate(u, other, o) && u.artifacts[o].size == t.artifacts[o].size {
      ReserveRow(t, p, plan, keep, now, o);
      assert forall i :: 0 <= i < |p.members| ==> p.members[i].objectId != o by {
        forall i | 0 <= i < |p.members| ensures p.members[i].objectId != o {
          assert IsCandidate(t, p.project, p.members[i].objectId);
        }
      }
    }
  }

  lemma ReserveStepKeeps(cfg: Config, w: World, a: Action)
    requires a.CallReserve?
    requires WorldInv(cfg, w) && BuildEnabled(cfg, w, a)
    ensures WorldInv(cfg, BuildApply(cfg, w, a))
  {
    var v := BuildApply(cfg, w, a);
    ReserveStepTables(cfg, w, a.project, a.plan, a.fault);
    EvolvedObjects(w, v);
    forall q ensures FilesOk(v, q) {
      assert FilesOk(w, q);
      if q in w.t.packages {
        EvolvedFiles(w, v, q);
      } else if q in v.t.packages {
        forall i | 0 <= i < |q.members| ensures KnownMember(v, q, i) {
          assert ObjectOk(w, q.members[i].objectId);
        }
      }
    }
    EvolvedDeadlines(w, v);
  }

  // ---------- Every step ----------

  lemma InitHolds(cfg: Config)
    ensures WorldInv(cfg, INIT)
  {
    EmptyKeeps();
    forall o ensures ObjectOk(INIT, o) {
    }
  }

  lemma ReceiverActionKeeps(cfg: Config, w: World, a: Action)
    requires IsReceiverAction(a)
    requires WorldInv(cfg, w) && ReceiverEnabled(w, a)
    ensures WorldInv(cfg, ReceiverApply(w, a))
  {
    if a.Tick? {
      TickKeeps(cfg, w, a);
    } else if a.Create? || a.Append? {
      UploadStepKeeps(cfg, w, a);
    } else if a.LockForCleanup? || a.Unlock? || a.ReceiverCrash? {
      LockStepKeeps(cfg, w, a);
    } else if a.CleanData? || a.CleanInfo? {
      CleanStepKeeps(cfg, w, a);
    } else if a.PublishReceipt? {
      PublishReceiptKeeps(cfg, w, a);
    } else {
      IndexKeeps(cfg, w, a);
    }
  }

  lemma DeliveryActionKeeps(cfg: Config, w: World, a: Action)
    requires IsDeliveryAction(a)
    requires WorldInv(cfg, w) && DeliveryEnabled(w, a)
    ensures WorldInv(cfg, DeliveryApply(w, a))
  {
    if a.DeliverCrash? || a.PackagePowerLoss? {
      CrashKeeps(cfg, w, a);
    } else if a.Restart? {
      RestartKeeps(cfg, w, a);
    } else if a.ClaimDelivery? {
      ClaimStepKeeps(cfg, w, a);
    } else if a.Fail? {
      FailStepKeeps(cfg, w, a);
    } else if a.Progress? {
      ProgressStepKeeps(cfg, w, a);
    } else {
      FinishKeeps(cfg, w, a);
    }
  }

  lemma BuildActionKeeps(cfg: Config, w: World, a: Action)
    requires IsBuildAction(a)
    requires WorldInv(cfg, w) && BuildEnabled(cfg, w, a)
    ensures WorldInv(cfg, BuildApply(cfg, w, a))
  {
    if a.ClaimBuild? {
      ClaimBuildKeeps(cfg, w, a);
    } else if a.CallReserve? {
      ReserveStepKeeps(cfg, w, a);
    } else if a.Merge? || a.PublishPayload? || a.PublishManifest? || a.BuildFails? {
      BuildStepKeeps(cfg, w, a);
    } else if a.SealIt? {
      SealStepKeeps(cfg, w, a);
    } else if a.IsolateMembers? {
      IsolateStepKeeps(cfg, w, a);
    } else {
      BuildRetryKeeps(cfg, w, a);
    }
  }

  lemma PurgeActionKeeps(cfg: Config, w: World, a: Action)
    requires IsPurgeAction(a)
    requires WorldInv(cfg, w) && PurgeEnabled(w, a)
    ensures WorldInv(cfg, PurgeApply(w, a))
  {
    if a.PickSource? || a.RemoveData? || a.RemoveInfo? {
      RemoveKeeps(cfg, w, a);
    } else if a.SourcePurged? {
      SourcePurgedKeeps(cfg, w, a);
    } else if a.SourceRetry? {
      SourceRetryKeeps(cfg, w, a);
    } else if a.PickPurge? || a.UnlinkPayload? || a.UnlinkManifest? {
      UnlinkKeeps(cfg, w, a);
    } else if a.PackagePurged? {
      PackagePurgedKeeps(cfg, w, a);
    } else {
      PurgeRetryKeeps(cfg, w, a);
    }
  }

  /** Every step of every process keeps the invariant. */
  lemma StepKeeps(cfg: Config, w: World, a: Action)
    requires WorldInv(cfg, w) && Enabled(cfg, w, a)
    ensures WorldInv(cfg, Apply(cfg, w, a))
  {
    if IsReceiverAction(a) {
      ReceiverActionKeeps(cfg, w, a);
    } else if IsDeliveryAction(a) {
      DeliveryActionKeeps(cfg, w, a);
    } else if IsBuildAction(a) {
      BuildActionKeeps(cfg, w, a);
    } else {
      PurgeActionKeeps(cfg, w, a);
    }
  }

  lemma {:induction false} RunKeeps(cfg: Config, worlds: seq<World>, actions: seq<Action>, i: nat)
    requires IsRun(cfg, worlds, actions) && i < |worlds|
    ensures WorldInv(cfg, worlds[i])
  {
    if i == 0 {
      InitHolds(cfg);
    } else {
      RunKeeps(cfg, worlds, actions, i - 1);
      assert StepAt(cfg, worlds, actions, i - 1);
      StepKeeps(cfg, worlds[i - 1], actions[i - 1]);
    }
  }
}
