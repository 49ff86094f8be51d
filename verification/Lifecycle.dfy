/**
 The whole system as one state machine: the receiver (create, append, accept, index, cleanup), the
 packaging goroutine and the delivery scheduler interleave one step at a time over the tables and the
 files, and either process, or the power under the package storage, can fail between any two steps.

 The machine allows more than the code does where that costs nothing: any claimable delivery may be
 claimed, any running one may end, any unreceipted upload may be judged stale.
 */
module Lifecycle {
  import opened Wrappers
  import opened Clock
  import opened PackageIds
  import opened PackageNames
  import opened Schema
  import opened TablesInvariant
  import opened Reservation

  type Byte = b: int | 0 <= b < 256
  type Bytes = seq<Byte>

  /** The tus .info file, and the same metadata in the request's memory. */
  datatype Info = Info(size: int, project: string, filename: string, checksum: string)

  datatype Receipt = Receipt(checksum: string, size: int, acceptedAt: int)

  /** History: what was accepted under an object ID. */
  datatype Accepted = Accepted(info: Info, receipt: Receipt, content: Bytes)

  /** Where the packaging goroutine stands. Temporary files live in the step that holds their bytes. */
  datatype Packer =
    | AtRest
    | Materializing(p: PackageId)
    | Merged(p: PackageId, bytes: Bytes)
    | PayloadPublished(p: PackageId, bytes: Bytes)
    | BothPublished(p: PackageId)
    | Broken(p: PackageId)
    | RemovingSource(o: string)
    | Unlinking(p: PackageId)

  datatype World = World(
    now: int,
    t: Tables,
    uploads: map<string, Bytes>,
    infos: map<string, Info>,
    receipts: map<string, Receipt>,
    payloads: map<PackageId, Bytes>,
    manifests: set<PackageId>,
    durablePayloads: set<PackageId>,
    durableManifests: set<PackageId>,
    packer: Packer,
    cleaner: Option<string>,
    ledger: map<string, Accepted>,
    deliveredNs: map<DeliveryKey, int>)

  const INIT := World(0, EMPTY, map[], map[], map[], map[], {}, {}, {}, AtRest, None, map[], map[])

  type Config = map<string, Packaging>

  datatype Action =
    | Tick(to: int)
    // receiver
    | Create(o: string, info: Info)
    | Append(o: string, chunk: Bytes)
    | PublishReceipt(o: string)
    | Index(o: string)
    | LockForCleanup(o: string)
    | CleanData
    | CleanInfo
    | Unlock
    | ReceiverCrash
    // deliver process
    | Restart
    | DeliverCrash
    | PackagePowerLoss
    | Discover(o: string)
    | ClaimDelivery(k: DeliveryKey)
    | Finish(k: DeliveryKey)
    | Fail(k: DeliveryKey, message: string)
    | Progress(k: DeliveryKey, snapshot: Snapshot)
    // packaging goroutine
    | ClaimBuild(p: PackageId)
    | CallReserve(project: string, plan: Option<Plan>, fault: bool)
    | Merge
    | PublishPayload
    | PublishManifest
    | SealIt(checksum: string, manifestChecksum: string)
    | BuildFails
    | IsolateMembers(invalid: map<string, string>)
    | BuildRetry(message: string)
    | PickSource(o: string)
    | RemoveData
    | RemoveInfo
    | SourcePurged
    | SourceRetry(message: string)
    | PickPurge(p: PackageId)
    | UnlinkPayload
    | UnlinkManifest
    | PackagePurged
    | PurgeRetry(message: string)

  // ---------- Steps ----------

  /** The per-object upload lock, held by a cleanup or by a source purge. */
  ghost predicate Locked(w: World, o: string) {
    w.cleaner == Some(o) || w.packer == RemovingSource(o)
  }

  /** beforeCreate, for an object ID that tusd draws. */
  ghost predicate Admissible(o: string, info: Info) {
    info.size >= 1 && IsIdentifier(o) && IsIdentifier(info.project) && IsChecksum(info.checksum)
  }

  /** Admission keeps NUL, the separator of package identities, out of every hashed field. */
  lemma AdmissibleHasNoNul(o: string, info: Info)
    requires Admissible(o, info)
    ensures NoNul(o) && NoNul(info.project) && NoNul(info.checksum)
  {
    forall i | 0 <= i < |info.checksum| ensures info.checksum[i] != '\0' {
      if i < |BLAKE3| {
        assert info.checksum[i] == info.checksum[..|BLAKE3|][i];
      } else {
        assert info.checksum[i] == info.checksum[|BLAKE3|..][i - |BLAKE3|];
      }
    }
  }

  /** The bytes that the first n member files hold together. */
  function Joined(files: map<string, Bytes>, p: PackageId, n: nat): Bytes
    requires n <= |p.members|
    requires forall i :: 0 <= i < n ==> p.members[i].objectId in files
  {
    if n == 0 then [] else Joined(files, p, n - 1) + files[p.members[n - 1].objectId]
  }

  ghost predicate AllPresent(files: map<string, Bytes>, p: PackageId) {
    forall i :: 0 <= i < |p.members| ==> p.members[i].objectId in files
  }

  /** The row that both indexArtifact and discoverAccepted write. */
  function RowOf(o: string, info: Info, receipt: Receipt): Artifact {
    NewArtifact(info.project, SafeFilename(info.filename, o), receipt.checksum, receipt.size, receipt.acceptedAt)
  }

  function Always(plan: Option<Plan>): PackageId -> Option<Plan> {
    _ => plan
  }

  predicate IsReceiverAction(a: Action) {
    || a.Tick?
    || a.Create?
    || a.Append?
    || a.LockForCleanup?
    || a.CleanData?
    || a.CleanInfo?
    || a.Unlock?
    || a.ReceiverCrash?
    || a.PublishReceipt?
    || a.Index?
    || a.Discover?
  }

  predicate IsDeliveryAction(a: Action) {
    || a.DeliverCrash?
    || a.PackagePowerLoss?
    || a.Restart?
    || a.ClaimDelivery?
    || a.Fail?
    || a.Progress?
    || a.Finish?
  }

  predicate IsBuildAction(a: Action) {
    || a.ClaimBuild?
    || a.CallReserve?
    || a.Merge?
    || a.PublishPayload?
    || a.PublishManifest?
    || a.BuildFails?
    || a.SealIt?
    || a.IsolateMembers?
    || a.BuildRetry?
  }

  predicate IsPurgeAction(a: Action) {
    || a.PickSource?
    || a.RemoveData?
    || a.RemoveInfo?
    || a.SourcePurged?
    || a.SourceRetry?
    || a.PickPurge?
    || a.UnlinkPayload?
    || a.UnlinkManifest?
    || a.PackagePurged?
    || a.PurgeRetry?
  }

  ghost predicate ReceiverEnabled(w: World, a: Action)
    requires IsReceiverAction(a)
  {
    match a
    case Tick(to) => w.now <= to
    case Create(o, info) => Admissible(o, info) && o !in w.uploads && o !in w.infos && o !in w.ledger && !Locked(w, o)
    case Append(o, chunk) =>
      o in w.uploads && o in w.infos && !Locked(w, o) && |w.uploads[o]| + |chunk| <= w.infos[o].size
    case PublishReceipt(o) =>
      o !in w.receipts && o in w.uploads && o in w.infos && !Locked(w, o) && |w.uploads[o]| == w.infos[o].size
    case Index(o) => o in w.receipts && o in w.ledger
    case LockForCleanup(o) => w.cleaner.None? && !Locked(w, o) && o !in w.receipts
    case CleanData => w.cleaner.Some?
    case CleanInfo => w.cleaner.Some?
    case Unlock => w.cleaner.Some?
    case ReceiverCrash => true
    case Discover(o) => o in w.receipts && o in w.uploads && o in w.infos
  }

  ghost predicate DeliveryEnabled(w: World, a: Action)
    requires IsDeliveryAction(a)
  {
    match a
    case Restart => true
    case DeliverCrash => true
    case PackagePowerLoss => true
    case ClaimDelivery(k) => Claimable(w.t, k, Unix(w.now))
    case Finish(k) => InDelivery(w.t, k)
    case Fail(k, _) => InDelivery(w.t, k)
    case Progress(k, _) => InDelivery(w.t, k)
  }

  ghost predicate BuildEnabled(cfg: Config, w: World, a: Action)
    requires IsBuildAction(a)
  {
    match a
    case ClaimBuild(p) => w.packer.AtRest? && BuildDue(w.t, p, Unix(w.now))
    case CallReserve(project, _, _) => w.packer.AtRest? && project in cfg
    case Merge => w.packer.Materializing? && AllPresent(w.uploads, w.packer.p)
    case PublishPayload => w.packer.Merged?
    case PublishManifest => w.packer.PayloadPublished?
    case SealIt(_, _) => w.packer.BothPublished?
    case BuildFails => w.packer.Materializing? || w.packer.Merged? || w.packer.PayloadPublished? || w.packer.BothPublished?
    case IsolateMembers(invalid) =>
      && w.packer.Broken? && w.packer.p.packager.MergePackager?
      && invalid.Keys != {} && invalid.Keys <= MembersOf(w.t, w.packer.p)
    case BuildRetry(_) => w.packer.Broken?
  }

  ghost predicate PurgeEnabled(w: World, a: Action)
    requires IsPurgeAction(a)
  {
    match a
    case PickSource(o) => w.packer.AtRest? && SourcePurgeDue(w.t, o, Unix(w.now)) && !Locked(w, o)
    case RemoveData => w.packer.RemovingSource?
    case RemoveInfo => w.packer.RemovingSource?
    case SourcePurged => w.packer.RemovingSource? && w.packer.o !in w.uploads && w.packer.o !in w.infos
    case SourceRetry(_) => w.packer.RemovingSource?
    case PickPurge(p) => w.packer.AtRest? && PurgeDue(w.t, p, Unix(w.now))
    case UnlinkPayload => w.packer.Unlinking?
    case UnlinkManifest => w.packer.Unlinking?
    case PackagePurged => w.packer.Unlinking? && w.packer.p !in w.payloads && w.packer.p !in w.manifests
    case PurgeRetry(_) => w.packer.Unlinking?
  }

  ghost predicate Enabled(cfg: Config, w: World, a: Action) {
    if IsReceiverAction(a) then ReceiverEnabled(w, a)
    else if IsDeliveryAction(a) then DeliveryEnabled(w, a)
    else if IsBuildAction(a) then BuildEnabled(cfg, w, a)
    else PurgeEnabled(w, a)
  }

  function Cut<K, V>(m: map<K, V>, k: K): map<K, V> {
    map x | x in m && x != k :: m[x]
  }

  /** The retry time of a failed build, from the attempts that nextBuildingPackage counted; a package
      in its first turn has none yet. */
  function BuildRetryAt(w: World): int
    requires w.packer.Broken?
  {
    var attempts := if w.packer.p in w.t.packages then w.t.packages[w.packer.p].buildAttempts else 0;
    Unix(w.now + Backoff(attempts))
  }

  ghost function Reserving(w: World, u: Tables, result: Result): World {
    w.(t := u, packer := if result.Reserved? then Materializing(result.packageId) else AtRest)
  }

  ghost function ReceiverApply(w: World, a: Action): World
    requires IsReceiverAction(a) && ReceiverEnabled(w, a)
  {
    match a
    case Tick(to) => w.(now := to)
    case Create(o, info) => w.(uploads := w.uploads[o := []], infos := w.infos[o := info])
    case Append(o, chunk) => w.(uploads := w.uploads[o := w.uploads[o] + chunk])
    case PublishReceipt(o) =>
      var receipt := Receipt(w.infos[o].checksum, |w.uploads[o]|, Unix(w.now));
      w.(receipts := w.receipts[o := receipt],
         ledger := w.ledger[o := Accepted(w.infos[o], receipt, w.uploads[o])])
    case Index(o) => w.(t := AddArtifact(w.t, o, RowOf(o, w.ledger[o].info, w.receipts[o])))
    case LockForCleanup(o) => w.(cleaner := Some(o))
    case CleanData => w.(uploads := Cut(w.uploads, w.cleaner.value))
    case CleanInfo => w.(infos := Cut(w.infos, w.cleaner.value))
    case Unlock => w.(cleaner := None)
    case ReceiverCrash => w.(cleaner := None)
    case Discover(o) => w.(t := AddArtifact(w.t, o, RowOf(o, w.infos[o], w.receipts[o])))
  }

  ghost function DeliveryApply(w: World, a: Action): World
    requires IsDeliveryAction(a) && DeliveryEnabled(w, a)
  {
    match a
    case Restart => w.(t := Recover(w.t, Unix(w.now)), packer := AtRest)
    case DeliverCrash => w.(packer := AtRest)
    case PackagePowerLoss =>
      w.(payloads := map p | p in w.payloads && p in w.durablePayloads :: w.payloads[p],
         manifests := w.manifests * w.durableManifests,
         packer := AtRest, cleaner := None)
    case ClaimDelivery(k) => w.(t := Claim(w.t, k))
    case Finish(k) =>
      w.(t := MarkDelivered(w.t, k, w.t.deliveries[k].plan.identifier, Unix(w.now),
                            UnixCeil(w.now + w.t.deliveries[k].plan.retentionNanos)),
         deliveredNs := w.deliveredNs[k := w.now])
    case Fail(k, message) =>
      w.(t := MarkRetry(w.t, k, message, Unix(w.now + Backoff(w.t.deliveries[k].attempts))))
    case Progress(k, snapshot) => w.(t := MarkProgress(w.t, k, snapshot))
  }

  ghost function BuildApply(cfg: Config, w: World, a: Action): World
    requires IsBuildAction(a) && BuildEnabled(cfg, w, a)
  {
    match a
    case ClaimBuild(p) => w.(t := StartBuild(w.t, p), packer := Materializing(p))
    case CallReserve(project, plan, fault) =>
      var (u, result) := ReservePackage(w.t, project, cfg[project], Always(plan), w.now, fault);
      Reserving(w, u, result)
    case Merge => w.(packer := Merged(w.packer.p, Joined(w.uploads, w.packer.p, |w.packer.p.members|)))
    case PublishPayload =>
      // rename, then sync of the directory
      var p := w.packer.p;
      w.(payloads := w.payloads[p := w.packer.bytes], durablePayloads := w.durablePayloads - {p},
         packer := PayloadPublished(p, w.packer.bytes))
    case PublishManifest =>
      var p := w.packer.p;
      w.(manifests := w.manifests + {p}, durablePayloads := w.durablePayloads + {p},
         durableManifests := w.durableManifests - {p}, packer := BothPublished(p))
    case SealIt(checksum, manifestChecksum) =>
      var p := w.packer.p;
      w.(t := Seal(w.t, p, Offset(p, |p.members|), checksum, manifestChecksum, Unix(w.now)),
         durableManifests := w.durableManifests + {p}, packer := AtRest)
    case BuildFails => w.(packer := Broken(w.packer.p))
    case IsolateMembers(invalid) => w.(t := Isolate(w.t, w.packer.p, invalid), packer := AtRest)
    case BuildRetry(message) =>
      w.(t := MarkBuildRetry(w.t, w.packer.p, message, BuildRetryAt(w)), packer := AtRest)
  }

  ghost function PurgeApply(w: World, a: Action): World
    requires IsPurgeAction(a) && PurgeEnabled(w, a)
  {
    match a
    case PickSource(o) => w.(packer := RemovingSource(o))
    case RemoveData => w.(uploads := Cut(w.uploads, w.packer.o))
    case RemoveInfo => w.(infos := Cut(w.infos, w.packer.o))
    case SourcePurged => w.(t := MarkSourcePurged(w.t, w.packer.o, Unix(w.now)), packer := AtRest)
    case SourceRetry(message) =>
      w.(t := MarkSourcePurgeRetry(w.t, w.packer.o, message, UnixCeil(w.now + MINUTE)), packer := AtRest)
    case PickPurge(p) => w.(packer := Unlinking(p))
    case UnlinkPayload => w.(payloads := Cut(w.payloads, w.packer.p), durablePayloads := w.durablePayloads - {w.packer.p})
    case UnlinkManifest => w.(manifests := w.manifests - {w.packer.p}, durableManifests := w.durableManifests - {w.packer.p})
    case PackagePurged => w.(t := MarkPurged(w.t, w.packer.p, Unix(w.now)), packer := AtRest)
    case PurgeRetry(message) =>
      w.(t := MarkPurgeRetry(w.t, w.packer.p, message, UnixCeil(w.now + MINUTE)), packer := AtRest)
  }

  ghost function Apply(cfg: Config, w: World, a: Action): World
    requires Enabled(cfg, w, a)
  {
    if IsReceiverAction(a) then ReceiverApply(w, a)
    else if IsDeliveryAction(a) then DeliveryApply(w, a)
    else if IsBuildAction(a) then BuildApply(cfg, w, a)
    else PurgeApply(w, a)
  }

  /** A finite run from the empty installation. */
  ghost predicate IsRun(cfg: Config, worlds: seq<World>, actions: seq<Action>) {
    && |worlds| == |actions| + 1
    && worlds[0] == INIT
    && forall i :: 0 <= i < |actions| ==> StepAt(cfg, worlds, actions, i)
  }

  ghost predicate StepAt(cfg: Config, worlds: seq<World>, actions: seq<Action>, i: nat)
    requires i < |actions| < |worlds|
  {
    Enabled(cfg, worlds[i], actions[i]) && worlds[i + 1] == Apply(cfg, worlds[i], actions[i])
  }
}
