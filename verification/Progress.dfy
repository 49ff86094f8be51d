/**
 What can always be done next: from every state that satisfies the invariant, an upload can be accepted,
 a due package built, a claimable delivery finished, a due source and a due package removed, and an
 artifact can go all the way from its creation to the removal of its package.
 */
module Progress {
  import opened Wrappers
  import opened Clock
  import opened Schema
  import opened TablesInvariant
  import opened Ordering
  import opened Reservation
  import opened Lifecycle
  import opened LifecycleInvariant

  /** The actions are possible one after the other from w, and end in v. */
  ghost predicate Leads(cfg: Config, w: World, actions: seq<Action>, v: World)
    decreases |actions|
  {
    if actions == [] then v == w
    else Enabled(cfg, w, actions[0]) && Leads(cfg, Apply(cfg, w, actions[0]), actions[1..], v)
  }

  lemma LeadsCons(cfg: Config, w: World, a: Action, u: World, rest: seq<Action>, v: World)
    requires Enabled(cfg, w, a) && Apply(cfg, w, a) == u && Leads(cfg, u, rest, v)
    ensures Leads(cfg, w, [a] + rest, v)
  {
    assert ([a] + rest)[1..] == rest;
  }

  /** One step. */
  ghost predicate Goes(cfg: Config, w: World, a: Action, v: World) {
    Enabled(cfg, w, a) && Apply(cfg, w, a) == v
  }

  lemma {:induction false} LeadsOn(cfg: Config, w: World, a: seq<Action>, u: World, b: seq<Action>, v: World)
    requires Leads(cfg, w, a, u) && Leads(cfg, u, b, v)
    ensures Leads(cfg, w, a + b, v)
    decreases |a|
  {
    if a == [] {
      assert a + b == b;
    } else {
      LeadsOn(cfg, Apply(cfg, w, a[0]), a[1..], u, b, v);
      assert a + b == [a[0]] + (a[1..] + b);
      LeadsCons(cfg, w, a[0], Apply(cfg, w, a[0]), a[1..] + b, v);
    }
  }

  lemma {:induction false} LeadsKeeps(cfg: Config, w: World, actions: seq<Action>, v: World)
    requires WorldInv(cfg, w) && Leads(cfg, w, actions, v)
    ensures WorldInv(cfg, v)
    decreases |actions|
  {
    if actions != [] {
      StepKeeps(cfg, w, actions[0]);
      LeadsKeeps(cfg, Apply(cfg, w, actions[0]), actions[1..], v);
    }
  }

  /** Some actions lead from w to v. */
  ghost predicate Reaches(cfg: Config, w: World, v: World) {
    exists actions :: Leads(cfg, w, actions, v)
  }

  lemma OneStep(cfg: Config, w: World, a: Action, v: World)
    requires Goes(cfg, w, a, v)
    ensures Reaches(cfg, w, v)
  {
    assert Leads(cfg, v, [], v);
    LeadsCons(cfg, w, a, v, [], v);
  }

  lemma ReachesOn(cfg: Config, w: World, u: World, v: World)
    requires Reaches(cfg, w, u) && Reaches(cfg, u, v)
    ensures Reaches(cfg, w, v)
  {
    var a :| Leads(cfg, w, a, u);
    var b :| Leads(cfg, u, b, v);
    LeadsOn(cfg, w, a, u, b, v);
  }

  lemma ReachesKeeps(cfg: Config, w: World, v: World)
    requires WorldInv(cfg, w) && Reaches(cfg, w, v)
    ensures WorldInv(cfg, v)
  {
    var actions :| Leads(cfg, w, actions, v);
    LeadsKeeps(cfg, w, actions, v);
  }

  lemma TwoSteps(cfg: Config, w: World, a: Action, u: World, b: Action, v: World)
    requires Goes(cfg, w, a, u) && Goes(cfg, u, b, v)
    ensures Reaches(cfg, w, v)
  {
    OneStep(cfg, w, a, u);
    OneStep(cfg, u, b, v);
    ReachesOn(cfg, w, u, v);
  }

  lemma FourSteps(cfg: Config, w: World, a: Action, w1: World, b: Action, w2: World, c: Action, w3: World, d: Action, v: World)
    requires Goes(cfg, w, a, w1) && Goes(cfg, w1, b, w2) && Goes(cfg, w2, c, w3) && Goes(cfg, w3, d, v)
    ensures Reaches(cfg, w, v)
  {
    TwoSteps(cfg, w, a, w1, b, w2);
    TwoSteps(cfg, w2, c, w3, d, v);
    ReachesOn(cfg, w, w2, v);
  }

  // ---------- Acceptance ----------

  /** A fresh upload of admissible metadata and as many bytes as declared can be accepted and indexed. */
  lemma UploadCanBeAccepted(cfg: Config, w: World, o: string, info: Info, content: Bytes) returns (v: World)
    requires WorldInv(cfg, w) && Admissible(o, info) && |content| == info.size
    requires o !in w.uploads && o !in w.infos && o !in w.ledger && !Locked(w, o)
    ensures Reaches(cfg, w, v) && WorldInv(cfg, v)
    ensures v.receipts == w.receipts[o := Receipt(info.checksum, info.size, Unix(w.now))]
    ensures v.uploads == w.uploads[o := content] && v.infos == w.infos[o := info]
    ensures v.t == w.t.(artifacts := w.t.artifacts[o := RowOf(o, info, v.receipts[o])])
    ensures v == w.(t := v.t, receipts := v.receipts, uploads := v.uploads, infos := v.infos, ledger := v.ledger)
  {
    assert ObjectOk(w, o);
    var a := w.(uploads := w.uploads[o := []], infos := w.infos[o := info]);
    assert [] + content == content;
    var b := a.(uploads := w.uploads[o := content]);
    var receipt := Receipt(info.checksum, |content|, Unix(w.now));
    var c := b.(receipts := b.receipts[o := receipt], ledger := b.ledger[o := Accepted(info, receipt, content)]);
    v := c.(t := AddArtifact(c.t, o, RowOf(o, info, receipt)));
    AppendOnce(cfg, w, a, b, o, info, content);
    FourSteps(cfg, w, Create(o, info), a, Append(o, content), b, PublishReceipt(o), c, Index(o), v);
    ReachesKeeps(cfg, w, v);
  }

  lemma AppendOnce(cfg: Config, w: World, a: World, b: World, o: string, info: Info, content: Bytes)
    requires o !in w.uploads && o !in w.infos && !Locked(w, o) && |content| == info.size
    requires a == w.(uploads := w.uploads[o := []], infos := w.infos[o := info])
    requires b == a.(uploads := w.uploads[o := content])
    ensures Enabled(cfg, a, Append(o, content)) && Apply(cfg, a, Append(o, content)) == b
  {
    assert [] + content == content;
  }

  // ---------- Building ----------

  /** All uploads of a package under construction are there. */
  lemma MembersPresent(cfg: Config, w: World, p: PackageId)
    requires WorldInv(cfg, w) && IsBuilding(w.t, p)
    ensures AllPresent(w.uploads, p)
  {
    assert PackageOk(w.t, p);
    forall i | 0 <= i < |p.members| ensures p.members[i].objectId in w.uploads {
      var o := p.members[i].objectId;
      assert OwnsAt(w.t, p, i) && MemberOk(w.t, o) && ObjectOk(w, o);
    }
  }

  lemma MergeGoes(cfg: Config, w: World, p: PackageId)
    requires WorldInv(cfg, w) && w.packer == Materializing(p)
    ensures Goes(cfg, w, Merge, w.(packer := Merged(p, PackageBytes(w.ledger, p))))
  {
    MembersPresent(cfg, w, p);
    assert FilesOk(w, p);
    JoinedIsOriginal(w, p, |p.members|);
  }

  lemma PublishPayloadGoes(cfg: Config, w: World, p: PackageId, bytes: Bytes)
    requires w.packer == Merged(p, bytes)
    ensures Goes(cfg, w, PublishPayload, w.(payloads := w.payloads[p := bytes], durablePayloads := w.durablePayloads - {p},
                                            packer := PayloadPublished(p, bytes)))
  {
  }

  lemma PublishManifestGoes(cfg: Config, w: World, p: PackageId, bytes: Bytes)
    requires w.packer == PayloadPublished(p, bytes)
    ensures Goes(cfg, w, PublishManifest, w.(manifests := w.manifests + {p}, durablePayloads := w.durablePayloads + {p},
                                             durableManifests := w.durableManifests - {p}, packer := BothPublished(p)))
  {
  }

  lemma SealGoes(cfg: Config, w: World, p: PackageId, checksum: string, manifestChecksum: string)
    requires w.packer == BothPublished(p)
    ensures Goes(cfg, w, SealIt(checksum, manifestChecksum),
                 w.(t := Seal(w.t, p, Offset(p, |p.members|), checksum, manifestChecksum, Unix(w.now)),
                    durableManifests := w.durableManifests + {p}, packer := AtRest))
  {
  }

  /** From the start of its materialization a package can be built, published and sealed: its payload is
      the accepted bytes of its members in order, both files are durable, and the row says so. */
  lemma PackageCanBeBuilt(cfg: Config, w: World, p: PackageId, checksum: string, manifestChecksum: string) returns (v: World)
    requires WorldInv(cfg, w) && w.packer == Materializing(p)
    ensures Reaches(cfg, w, v) && WorldInv(cfg, v)
    ensures IsBuilding(w.t, p) && IsSealed(v.t, p) && v.t == w.t.(packages := w.t.packages[p := v.t.packages[p]])
    ensures v.t.packages[p].checksum == Some(checksum) && v.t.packages[p].manifestChecksum == Some(manifestChecksum)
    ensures v.t.packages[p].sealedAt == Some(Unix(w.now)) && v.t.packages[p].purgedAt == w.t.packages[p].purgedAt
    ensures v.t.packages[p].purgeAfter == w.t.packages[p].purgeAfter
    ensures v.t.packages[p].nextPurgeAt == w.t.packages[p].nextPurgeAt
    ensures v.payloads == w.payloads[p := PackageBytes(w.ledger, p)] && v.manifests == w.manifests + {p}
    ensures p in v.durablePayloads && p in v.durableManifests
    ensures v == w.(t := v.t, payloads := v.payloads, manifests := v.manifests, durablePayloads := v.durablePayloads,
                    durableManifests := v.durableManifests, packer := AtRest)
  {
    var bytes := PackageBytes(w.ledger, p);
    var a := w.(packer := Merged(p, bytes));
    var b := a.(payloads := a.payloads[p := bytes], durablePayloads := a.durablePayloads - {p},
                packer := PayloadPublished(p, bytes));
    var c := b.(manifests := b.manifests + {p}, durablePayloads := b.durablePayloads + {p},
                durableManifests := b.durableManifests - {p}, packer := BothPublished(p));
    v := c.(t := Seal(c.t, p, Offset(p, |p.members|), checksum, manifestChecksum, Unix(c.now)),
            durableManifests := c.durableManifests + {p}, packer := AtRest);
    MergeGoes(cfg, w, p);
    PublishPayloadGoes(cfg, a, p, bytes);
    PublishManifestGoes(cfg, b, p, bytes);
    SealGoes(cfg, c, p, checksum, manifestChecksum);
    var seal := SealIt(checksum, manifestChecksum);
    FourSteps(cfg, w, Merge, a, PublishPayload, b, PublishManifest, c, seal, v);
    ReachesKeeps(cfg, w, v);
  }

  /** A due package can be claimed for its build while the packaging goroutine is at rest. */
  lemma DueBuildCanStart(cfg: Config, w: World, p: PackageId) returns (v: World)
    requires WorldInv(cfg, w) && w.packer.AtRest? && BuildDue(w.t, p, Unix(w.now))
    ensures Reaches(cfg, w, v) && WorldInv(cfg, v) && v.packer == Materializing(p)
    ensures v == w.(t := v.t, packer := v.packer)
    ensures IsBuilding(v.t, p) && v.t.packages[p].buildAttempts == w.t.packages[p].buildAttempts + 1
  {
    v := w.(t := StartBuild(w.t, p), packer := Materializing(p));
    OneStep(cfg, w, ClaimBuild(p), v);
    ReachesKeeps(cfg, w, v);
  }

  // ---------- Delivering ----------

  lemma DeliveryGoes(cfg: Config, w: World, k: DeliveryKey)
    requires Claimable(w.t, k, Unix(w.now))
    ensures Goes(cfg, w, ClaimDelivery(k), w.(t := Claim(w.t, k)))
  {
  }

  lemma FinishGoes(cfg: Config, w: World, k: DeliveryKey)
    requires InDelivery(w.t, k)
    ensures
      var d := w.t.deliveries[k];
      Goes(cfg, w, Finish(k),
           w.(t := MarkDelivered(w.t, k, d.plan.identifier, Unix(w.now), UnixCeil(w.now + d.plan.retentionNanos)),
              deliveredNs := w.deliveredNs[k := w.now]))
  {
  }

  /** A claimable delivery can be tried and finished. */
  lemma DeliveryCanFinish(cfg: Config, w: World, k: DeliveryKey) returns (v: World)
    requires WorldInv(cfg, w) && Claimable(w.t, k, Unix(w.now))
    ensures Reaches(cfg, w, v) && WorldInv(cfg, v)
    ensures k in v.t.deliveries && v.t.deliveries == w.t.deliveries[k := v.t.deliveries[k]]
    ensures v.t.deliveries[k].state.Delivered? && v.t.deliveries[k].plan == w.t.deliveries[k].plan
    ensures v.t.deliveries[k].attempts == w.t.deliveries[k].attempts + 1
    ensures k.packageId in v.t.packages
    ensures v.t == w.t.(deliveries := v.t.deliveries, packages := w.t.packages[k.packageId := v.t.packages[k.packageId]])
    ensures
      var before, row := w.t.packages[k.packageId], v.t.packages[k.packageId];
      && row == before.(purgeAfter := row.purgeAfter, nextPurgeAt := row.nextPurgeAt)
      && (before.nextPurgeAt.None? ==>
            row.nextPurgeAt == Some(UnixCeil(w.now + w.t.deliveries[k].plan.retentionNanos)))
    ensures v == w.(t := v.t, deliveredNs := w.deliveredNs[k := w.now])
  {
    var u := w.(t := Claim(w.t, k));
    var d := u.t.deliveries[k];
    v := u.(t := MarkDelivered(u.t, k, d.plan.identifier, Unix(u.now), UnixCeil(u.now + d.plan.retentionNanos)),
            deliveredNs := u.deliveredNs[k := u.now]);
    DeliveryGoes(cfg, w, k);
    FinishGoes(cfg, u, k);
    TwoSteps(cfg, w, ClaimDelivery(k), u, Finish(k), v);
    ReachesKeeps(cfg, w, v);
  }

  // ---------- Removing ----------

  lemma PickSourceGoes(cfg: Config, w: World, o: string)
    requires WorldInv(cfg, w) && w.packer.AtRest? && SourcePurgeDue(w.t, o, Unix(w.now))
    ensures Goes(cfg, w, PickSource(o), w.(packer := RemovingSource(o)))
  {
    assert ObjectOk(w, o);
  }

  lemma RemoveGoes(cfg: Config, w: World, o: string)
    requires w.packer == RemovingSource(o)
    ensures Goes(cfg, w, RemoveData, w.(uploads := Cut(w.uploads, o)))
    ensures Goes(cfg, w, RemoveInfo, w.(infos := Cut(w.infos, o)))
  {
  }

  lemma SourcePurgedGoes(cfg: Config, w: World, o: string)
    requires w.packer == RemovingSource(o) && o !in w.uploads && o !in w.infos
    ensures Goes(cfg, w, SourcePurged, w.(t := MarkSourcePurged(w.t, o, Unix(w.now)), packer := AtRest))
  {
  }

  /** A due source can be removed: both its files go, and its row says so; no other upload is touched. */
  lemma SourceCanGo(cfg: Config, w: World, o: string) returns (v: World)
    requires WorldInv(cfg, w) && w.packer.AtRest? && SourcePurgeDue(w.t, o, Unix(w.now))
    ensures Reaches(cfg, w, v) && WorldInv(cfg, v)
    ensures v.uploads == Cut(w.uploads, o) && v.infos == Cut(w.infos, o)
    ensures o in v.t.artifacts && v.t == w.t.(artifacts := w.t.artifacts[o := v.t.artifacts[o]])
    ensures v.t.artifacts[o].sourcePurgedAt == Some(Unix(w.now))
    ensures v.t.artifacts[o].packageId == w.t.artifacts[o].packageId
    ensures v == w.(t := v.t, uploads := v.uploads, infos := v.infos)
  {
    var a := w.(packer := RemovingSource(o));
    var b := a.(uploads := Cut(a.uploads, o));
    var c := b.(infos := Cut(b.infos, o));
    v := c.(t := MarkSourcePurged(c.t, o, Unix(c.now)), packer := AtRest);
    PickSourceGoes(cfg, w, o);
    RemoveGoes(cfg, a, o);
    RemoveGoes(cfg, b, o);
    SourcePurgedGoes(cfg, c, o);
    FourSteps(cfg, w, PickSource(o), a, RemoveData, b, RemoveInfo, c, SourcePurged, v);
    ReachesKeeps(cfg, w, v);
  }

  lemma PickPurgeGoes(cfg: Config, w: World, p: PackageId)
    requires w.packer.AtRest? && PurgeDue(w.t, p, Unix(w.now))
    ensures Goes(cfg, w, PickPurge(p), w.(packer := Unlinking(p)))
  {
  }

  lemma UnlinkGoes(cfg: Config, w: World, p: PackageId)
    requires w.packer == Unlinking(p)
    ensures Goes(cfg, w, UnlinkPayload, w.(payloads := Cut(w.payloads, p), durablePayloads := w.durablePayloads - {p}))
    ensures Goes(cfg, w, UnlinkManifest, w.(manifests := w.manifests - {p}, durableManifests := w.durableManifests - {p}))
  {
  }

  lemma PackagePurgedGoes(cfg: Config, w: World, p: PackageId)
    requires w.packer == Unlinking(p) && p !in w.payloads && p !in w.manifests
    ensures Goes(cfg, w, PackagePurged, w.(t := MarkPurged(w.t, p, Unix(w.now)), packer := AtRest))
  {
  }

  /** A package that is due for purge can be removed: both its files go, and its row says so. */
  lemma PackageCanGo(cfg: Config, w: World, p: PackageId) returns (v: World)
    requires WorldInv(cfg, w) && w.packer.AtRest? && PurgeDue(w.t, p, Unix(w.now))
    ensures Reaches(cfg, w, v) && WorldInv(cfg, v)
    ensures v.payloads == Cut(w.payloads, p) && v.manifests == w.manifests - {p}
    ensures p in v.t.packages && v.t == w.t.(packages := w.t.packages[p := v.t.packages[p]])
    ensures v.t.packages[p].purgedAt == Some(Unix(w.now))
    ensures v == w.(t := v.t, payloads := v.payloads, manifests := v.manifests,
                    durablePayloads := v.durablePayloads, durableManifests := v.durableManifests)
  {
    var a := w.(packer := Unlinking(p));
    var b := a.(payloads := Cut(a.payloads, p), durablePayloads := a.durablePayloads - {p});
    var c := b.(manifests := b.manifests - {p}, durableManifests := b.durableManifests - {p});
    v := c.(t := MarkPurged(c.t, p, Unix(c.now)), packer := AtRest);
    PickPurgeGoes(cfg, w, p);
    UnlinkGoes(cfg, a, p);
    UnlinkGoes(cfg, b, p);
    PackagePurgedGoes(cfg, c, p);
    FourSteps(cfg, w, PickPurge(p), a, UnlinkPayload, b, UnlinkManifest, c, PackagePurged, v);
    ReachesKeeps(cfg, w, v);
  }

  /** An upload that was not accepted can be cleaned up; no other upload is touched. */
  lemma AbandonedCanGo(cfg: Config, w: World, o: string) returns (v: World)
    requires WorldInv(cfg, w) && o !in w.receipts && !Locked(w, o) && w.cleaner.None?
    ensures Reaches(cfg, w, v) && WorldInv(cfg, v)
    ensures v == w.(uploads := Cut(w.uploads, o), infos := Cut(w.infos, o))
  {
    var a := w.(cleaner := Some(o));
    var b := a.(uploads := Cut(a.uploads, o));
    var c := b.(infos := Cut(b.infos, o));
    v := c.(cleaner := None);
    LockGoes(cfg, w, o);
    CleanGoes(cfg, a, o);
    CleanGoes(cfg, b, o);
    CleanGoes(cfg, c, o);
    FourSteps(cfg, w, LockForCleanup(o), a, CleanData, b, CleanInfo, c, Unlock, v);
    ReachesKeeps(cfg, w, v);
  }

  lemma LockGoes(cfg: Config, w: World, o: string)
    requires o !in w.receipts && !Locked(w, o) && w.cleaner.None?
    ensures Goes(cfg, w, LockForCleanup(o), w.(cleaner := Some(o)))
  {
  }

  lemma CleanGoes(cfg: Config, w: World, o: string)
    requires w.cleaner == Some(o)
    ensures Goes(cfg, w, CleanData, w.(uploads := Cut(w.uploads, o)))
    ensures Goes(cfg, w, CleanInfo, w.(infos := Cut(w.infos, o)))
    ensures Goes(cfg, w, Unlock, w.(cleaner := None))
  {
  }

  // ---------- Trouble ----------

  /** Nothing protects a step: at every point a build and a removal may fail, */
  lemma WorkMayFail(cfg: Config, w: World, message: string)
    ensures w.packer.Materializing? || w.packer.Merged? || w.packer.PayloadPublished? || w.packer.BothPublished? ==>
      Goes(cfg, w, BuildFails, w.(packer := Broken(w.packer.p)))
    ensures w.packer.Broken? ==> Enabled(cfg, w, BuildRetry(message))
    ensures w.packer.RemovingSource? ==> Enabled(cfg, w, SourceRetry(message))
    ensures w.packer.Unlinking? ==> Enabled(cfg, w, PurgeRetry(message))
  {
  }

  /** a delivery may fail, and either process may crash and forget what it was doing. */
  lemma ProcessMayFail(cfg: Config, w: World, k: DeliveryKey, message: string)
    ensures InDelivery(w.t, k) ==> Enabled(cfg, w, Fail(k, message))
    ensures Goes(cfg, w, DeliverCrash, w.(packer := AtRest))
    ensures Goes(cfg, w, ReceiverCrash, w.(cleaner := None))
  {
  }

  /** A power failure may come at any point. It takes exactly the package files that no directory sync has
      made durable, and what the processes were doing; the tables and the uploads stay. So a payload that
      was renamed into place but not synced is lost, with its package still under construction. */
  lemma PowerLossTakesUnsynced(cfg: Config, w: World, p: PackageId) returns (v: World)
    requires PackerOk(w)
    ensures Goes(cfg, w, PackagePowerLoss, v)
    ensures v == w.(payloads := v.payloads, manifests := v.manifests, packer := AtRest, cleaner := None)
    ensures p in v.payloads <==> p in w.payloads && p in w.durablePayloads
    ensures p in v.payloads ==> v.payloads[p] == w.payloads[p]
    ensures p in v.manifests <==> p in w.manifests && p in w.durableManifests
    ensures w.packer.PayloadPublished? && w.packer.p == p && p !in w.durablePayloads ==>
      p !in v.payloads && IsBuilding(v.t, p)
  {
    v := DeliveryApply(w, PackagePowerLoss);
  }

  // ---------- From creation to removal ----------

  lemma Waits(cfg: Config, w: World, to: int)
    requires WorldInv(cfg, w) && w.now <= to
    ensures Reaches(cfg, w, w.(now := to)) && WorldInv(cfg, w.(now := to))
  {
    OneStep(cfg, w, Tick(to), w.(now := to));
    ReachesKeeps(cfg, w, w.(now := to));
  }

  /** When the packager takes a lone candidate: at once, or once it is old enough. */
  function Patience(pack: Packaging): (r: int)
    ensures r >= 0
  {
    if pack.PackMerge? && pack.merge.maxWait > 0 then pack.merge.maxWait else 0
  }

  lemma LoneCandidates(t: Tables, project: string, o: string)
    requires forall x :: IsCandidate(t, project, x) <==> x == o
    ensures Candidates(t, project) == [o]
  {
    forall x ensures x in CandidateSet(t, project) <==> x == o {
      assert IsCandidate(t, project, x) <==> x == o;
    }
    assert CandidateSet(t, project) == {o};
    ListingStep({o}, CandidateRank(t));
  }

  /** p was formed with this plan, and holds the artifact. */
  ghost predicate FormedAround(t: Tables, u: Tables, p: PackageId, plan: Plan, second: int, o: string) {
    && AddsFreshRows(t, u, p, plan, second)
    && o in t.artifacts && o in u.artifacts && u.artifacts[o] == t.artifacts[o].(packageId := Some(p))
  }

  lemma LoneIsReserved(t0: Tables, project: string, pack: Packaging, plan: Plan, now: int, o: string)
    requires Inv(t0) && o in t0.artifacts && (forall x :: IsCandidate(t0, project, x) <==> x == o)
    requires now >= t0.artifacts[o].acceptedAt * SECOND + Patience(pack)
    ensures
      var (u, result) := ReservePackage(t0, project, pack, Always(Some(plan)), now, false);
      result.Reserved? && FormedAround(t0, u, result.packageId, plan, Unix(now), o)
  {
    var t := EnsureProject(t0, project);
    EnsureProjectKeeps(t0, project);
    assert forall x :: IsCandidate(t, project, x) <==> IsCandidate(t0, project, x);
    LoneCandidates(t, project, o);
    CallReserves(t0, project, pack, Always(Some(plan)), now, false);
    ReservedPackage(t0, project, pack, Always(Some(plan)), now, false);
    LoneRow(t, project, pack, plan, now, o);
  }

  lemma LoneRow(t: Tables, project: string, pack: Packaging, plan: Plan, now: int, o: string)
    requires Inv(t) && Backlogged(t, project) && Choose(t, project, pack, now).Reserve? && Candidates(t, project) == [o]
    requires Selectable(t, Picked(t, project, pack, now)) && o in t.artifacts
    ensures
      var p := Picked(t, project, pack, now);
      var u := InsertReservation(t, p, plan, Choose(t, project, pack, now).draining, Unix(now));
      o in u.artifacts && u.artifacts[o] == t.artifacts[o].(packageId := Some(p))
  {
    var p := Picked(t, project, pack, now);
    PickedAreThePrefix(t, project, pack, now, o);
    ReserveRow(t, p, plan, Choose(t, project, pack, now).draining, Unix(now), o);
  }

  lemma ReserveGoes(cfg: Config, w: World, project: string, plan: Plan, o: string) returns (p: PackageId, v: World)
    requires WorldInv(cfg, w) && w.packer.AtRest? && project in cfg && o in w.t.artifacts
    requires forall x :: IsCandidate(w.t, project, x) <==> x == o
    requires w.now >= w.t.artifacts[o].acceptedAt * SECOND + Patience(cfg[project])
    ensures Reaches(cfg, w, v) && WorldInv(cfg, v)
    ensures v == w.(t := v.t, packer := Materializing(p)) && FormedAround(w.t, v.t, p, plan, Unix(w.now), o)
  {
    LoneIsReserved(w.t, project, cfg[project], plan, w.now, o);
    var (u, result) := ReservePackage(w.t, project, cfg[project], Always(Some(plan)), w.now, false);
    p := result.packageId;
    v := w.(t := u, packer := Materializing(p));
    OneStep(cfg, w, CallReserve(project, Some(plan), false), v);
    ReachesKeeps(cfg, w, v);
  }

  /** The artifact was delivered with its package, and neither its upload nor the package's files are left. */
  ghost predicate Removed(w: World, o: string, p: PackageId) {
    && o in w.t.artifacts && w.t.artifacts[o].packageId == Some(p) && w.t.artifacts[o].sourcePurgedAt.Some?
    && DeliveryKey(p, SINK) in w.t.deliveries && w.t.deliveries[DeliveryKey(p, SINK)].state.Delivered?
    && p in w.t.packages && w.t.packages[p].purgedAt.Some?
    && o !in w.uploads && o !in w.infos && p !in w.payloads && p !in w.manifests
  }

  /** Under any configuration an artifact of a configured project can go all the way from an empty
      installation: accepted, packaged, delivered, its source removed, and its package removed. */
  lemma ArtifactCanGoThrough(cfg: Config, project: string, o: string, info: Info, content: Bytes, plan: Plan)
    returns (v: World, p: PackageId)
    requires project in cfg && Admissible(o, info) && info.project == project && |content| == info.size
    ensures Reaches(cfg, INIT, v) && WorldInv(cfg, v) && Removed(v, o, p)
    ensures o in v.receipts && v.receipts[o].checksum == info.checksum && v.receipts[o].size == info.size
  {
    InitHolds(cfg);
    var w1 := UploadCanBeAccepted(cfg, INIT, o, info, content);
    var w2, q := LoneCanBeReserved(cfg, w1, project, plan, o);
    ReachesOn(cfg, INIT, w1, w2);
    v := PackageCanGoThrough(cfg, w2, q, o, plan);
    ReachesOn(cfg, INIT, w2, v);
    p := q;
  }

  lemma LoneCanBeReserved(cfg: Config, w: World, project: string, plan: Plan, o: string) returns (v: World, p: PackageId)
    requires WorldInv(cfg, w) && w.packer.AtRest? && w.now >= 0 && project in cfg && o in w.t.artifacts
    requires forall x :: IsCandidate(w.t, project, x) <==> x == o
    ensures Reaches(cfg, w, v) && WorldInv(cfg, v) && v.now >= 0
    ensures v == w.(now := v.now, t := v.t, packer := Materializing(p))
    ensures FormedAround(w.t, v.t, p, plan, Unix(v.now), o)
  {
    var ready := w.t.artifacts[o].acceptedAt * SECOND + Patience(cfg[project]);
    var u := w.(now := if w.now < ready then ready else w.now);
    Waits(cfg, w, u.now);
    p, v := ReserveGoes(cfg, u, project, plan, o);
    ReachesOn(cfg, w, u, v);
  }

  /** A sealed package at this second, with a delivery under the plan that nobody tried yet. */
  ghost predicate Undelivered(w: World, p: PackageId, plan: Plan) {
    && Unpurged(w.t, p) && w.t.packages[p].nextPurgeAt.None?
    && DeliveryKey(p, SINK) in w.t.deliveries && FreshDelivery(w.t.deliveries[DeliveryKey(p, SINK)], plan)
    && 0 <= w.now && w.packer.AtRest?
  }

  /** A fresh package that is being materialized can be sealed, */
  lemma FreshCanBeSealed(cfg: Config, w: World, p: PackageId, plan: Plan) returns (v: World)
    requires WorldInv(cfg, w) && w.packer == Materializing(p) && w.now >= 0
    requires p in w.t.packages && FreshPackage(w.t.packages[p], |p.members|, w.t.packages[p].createdAt)
    requires DeliveryKey(p, SINK) in w.t.deliveries && FreshDelivery(w.t.deliveries[DeliveryKey(p, SINK)], plan)
    ensures Reaches(cfg, w, v) && WorldInv(cfg, v) && Undelivered(v, p, plan)
    ensures v.now == w.now && v.t.artifacts == w.t.artifacts && v.receipts == w.receipts
  {
    v := PackageCanBeBuilt(cfg, w, p, "payload", "manifest");
  }

  /** delivered, */
  lemma SealedCanBeDelivered(cfg: Config, w: World, p: PackageId, plan: Plan) returns (v: World)
    requires WorldInv(cfg, w) && Undelivered(w, p, plan)
    ensures Reaches(cfg, w, v) && WorldInv(cfg, v)
    ensures v.now == w.now && v.packer.AtRest? && v.t.artifacts == w.t.artifacts && v.receipts == w.receipts
    ensures DeliveryKey(p, SINK) in v.t.deliveries && v.t.deliveries[DeliveryKey(p, SINK)].state.Delivered?
    ensures Unpurged(v.t, p) && v.t.packages[p].nextPurgeAt == Some(UnixCeil(w.now + plan.retentionNanos))
  {
    UnixMonotone(0, w.now);
    v := DeliveryCanFinish(cfg, w, DeliveryKey(p, SINK));
  }

  /** and then removed, with the source of one of its members. */
  lemma PackageCanGoThrough(cfg: Config, w: World, p: PackageId, o: string, plan: Plan) returns (v: World)
    requires WorldInv(cfg, w) && w.packer == Materializing(p) && w.now >= 0
    requires p in w.t.packages && FreshPackage(w.t.packages[p], |p.members|, w.t.packages[p].createdAt)
    requires DeliveryKey(p, SINK) in w.t.deliveries && FreshDelivery(w.t.deliveries[DeliveryKey(p, SINK)], plan)
    requires o in w.t.artifacts && w.t.artifacts[o].packageId == Some(p)
    requires w.t.artifacts[o].sourcePurgedAt.None? && w.t.artifacts[o].nextSourcePurge == 0
    ensures Reaches(cfg, w, v) && WorldInv(cfg, v) && v.receipts == w.receipts && Removed(v, o, p)
  {
    UnixMonotone(0, w.now);
    var a := FreshCanBeSealed(cfg, w, p, plan);
    var b := SealedCanBeDelivered(cfg, a, p, plan);
    ReachesOn(cfg, w, a, b);
    v := DeliveredCanBeRemoved(cfg, b, p, o, w.now + plan.retentionNanos);
    ReachesOn(cfg, w, b, v);
  }

  lemma DeliveredCanBeRemoved(cfg: Config, w: World, p: PackageId, o: string, deadline: int) returns (v: World)
    requires WorldInv(cfg, w) && w.packer.AtRest? && Unpurged(w.t, p)
    requires w.t.packages[p].nextPurgeAt == Some(UnixCeil(deadline))
    requires DeliveryKey(p, SINK) in w.t.deliveries && w.t.deliveries[DeliveryKey(p, SINK)].state.Delivered?
    requires o in w.t.artifacts && w.t.artifacts[o].packageId == Some(p) && SourcePurgeDue(w.t, o, Unix(w.now))
    ensures Reaches(cfg, w, v) && WorldInv(cfg, v) && v.receipts == w.receipts && Removed(v, o, p)
  {
    var b := SourceCanGo(cfg, w, o);
    v := DeliveredCanGo(cfg, b, p, deadline);
    ReachesOn(cfg, w, b, v);
  }

  /** A delivered package goes once the retention is over. */
  lemma DeliveredCanGo(cfg: Config, w: World, p: PackageId, deadline: int) returns (v: World)
    requires WorldInv(cfg, w) && w.packer.AtRest? && Unpurged(w.t, p)
    requires w.t.packages[p].nextPurgeAt == Some(UnixCeil(deadline))
    requires DeliveryKey(p, SINK) in w.t.deliveries && w.t.deliveries[DeliveryKey(p, SINK)].state.Delivered?
    ensures Reaches(cfg, w, v) && WorldInv(cfg, v)
    ensures p in v.t.packages && v.t.packages[p].purgedAt.Some? && p !in v.payloads && p !in v.manifests
    ensures v.t == w.t.(packages := v.t.packages) && v.uploads == w.uploads && v.infos == w.infos && v.receipts == w.receipts
  {
    var later := deadline + SECOND;
    var u := w.(now := if w.now < later then later else w.now);
    DeadlineNeverEarly(deadline, u.now);
    Waits(cfg, w, u.now);
    forall k | k in w.t.deliveries && k.packageId == p ensures w.t.deliveries[k].state.Delivered? {
      assert DeliveryOk(w.t, k);
    }
    assert AllDelivered(u.t, p);
    v := PackageCanGo(cfg, u, p);
    ReachesOn(cfg, w, u, v);
  }
}
