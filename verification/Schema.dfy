/**
 The four tables of the delivery database as a value, and one function per SQL statement or
 transaction with its exact WHERE filter. A statement whose filter matches no row leaves the tables
 unchanged. Timestamps are whole Unix seconds.
 */
module Schema {
  import opened Wrappers
  import opened PackageIds

  /** A package ID stands for what it was derived from (see PackageIds.EncodeInjective): the packager
      and project columns and the ordered list of original members. */
  type PackageId = Identity

  datatype Artifact = Artifact(
    project: string,
    filename: string,
    checksum: string,
    size: int,
    acceptedAt: int,
    packageId: Option<PackageId>,
    packagingError: Option<string>,
    sourcePurgedAt: Option<int>,
    nextSourcePurge: int,
    sourcePurgeError: Option<string>)

  datatype PackageState = Building | Sealed | Blocked

  datatype BuildError = Failure(message: string) | InvalidMembers(messages: map<string, string>)

  datatype Package = Package(
    state: PackageState,
    size: Option<int>,
    checksum: Option<string>,
    manifestChecksum: Option<string>,
    memberCount: int,
    buildAttempts: nat,
    nextBuildAt: int,
    buildError: Option<BuildError>,
    createdAt: int,
    sealedAt: Option<int>,
    purgeAfter: Option<int>,
    nextPurgeAt: Option<int>,
    purgeError: Option<string>,
    purgedAt: Option<int>)

  datatype Member = Member(packageId: PackageId, ordinal: nat, offset: int, size: int, checksum: string)

  datatype DeliveryState = Pending | Delivering | RetryWait | Delivered

  /** The resolved plan persisted at reservation. */
  datatype Plan = Plan(identifier: string, files: map<string, string>, retentionNanos: int)

  /** An upload progress snapshot; `attempt` is a history field naming the attempt that sent it. */
  datatype Snapshot = Snapshot(attempt: nat, raw: string)

  datatype DeliveryKey = DeliveryKey(packageId: PackageId, sinkId: string)

  datatype Delivery = Delivery(
    state: DeliveryState,
    plan: Plan,
    attempts: nat,
    nextAttempt: int,
    lastError: Option<string>,
    remoteId: Option<string>,
    progress: Option<Snapshot>,
    deliveredAt: Option<int>)

  /** Member rows are keyed by object_id, which the schema declares UNIQUE. */
  datatype Tables = Tables(
    artifacts: map<string, Artifact>,
    draining: map<string, bool>,
    packages: map<PackageId, Package>,
    members: map<string, Member>,
    deliveries: map<DeliveryKey, Delivery>)

  const EMPTY := Tables(map[], map[], map[], map[], map[])
  const SINK := "internet_archive"
  const MESSAGE_LIMIT := 4096

  function Truncate(message: string): string {
    if |message| > MESSAGE_LIMIT then message[..MESSAGE_LIMIT] else message
  }

  // ---------- artifacts and packaging_projects ----------

  function NewArtifact(project: string, filename: string, checksum: string, size: int, acceptedAt: int): Artifact {
    Artifact(project, filename, checksum, size, acceptedAt, None, None, None, 0, None)
  }

  /** addArtifact: ON CONFLICT(object_id) DO NOTHING. */
  function AddArtifact(t: Tables, o: string, row: Artifact): Tables {
    if o in t.artifacts then t else t.(artifacts := t.artifacts[o := row])
  }

  function EnsureProject(t: Tables, project: string): Tables {
    if project in t.draining then t else t.(draining := t.draining[project := false])
  }

  function SetDraining(t: Tables, project: string, draining: bool): Tables {
    if project in t.draining then t.(draining := t.draining[project := draining]) else t
  }

  predicate IsCandidate(t: Tables, project: string, o: string) {
    && o in t.artifacts
    && t.artifacts[o].project == project
    && t.artifacts[o].packageId.None?
    && t.artifacts[o].packagingError.None?
  }

  function CandidateSet(t: Tables, project: string): set<string> {
    set o | o in t.artifacts && IsCandidate(t, project, o)
  }

  // ---------- the reservation transaction ----------

  predicate Known(t: Tables, selected: seq<string>) {
    forall i :: 0 <= i < |selected| ==> selected[i] in t.artifacts
  }

  function Sizes(t: Tables, selected: seq<string>): (r: seq<int>)
    requires Known(t, selected)
    ensures |r| == |selected|
    ensures forall i :: 0 <= i < |r| ==> r[i] == t.artifacts[selected[i]].size
  {
    seq(|selected|, i requires 0 <= i < |selected| => t.artifacts[selected[i]].size)
  }

  function MemberKeys(t: Tables, selected: seq<string>): (r: seq<MemberKey>)
    requires Known(t, selected)
    ensures |r| == |selected|
    ensures forall i :: 0 <= i < |r| ==>
      r[i] == MemberKey(selected[i], t.artifacts[selected[i]].checksum, t.artifacts[selected[i]].size)
  {
    seq(|selected|, i requires 0 <= i < |selected| =>
      MemberKey(selected[i], t.artifacts[selected[i]].checksum, t.artifacts[selected[i]].size))
  }

  /** Where member i starts in the payload: the sizes of the members before it. */
  function Offset(p: PackageId, i: nat): int
    requires i <= |p.members|
  {
    if i == 0 then 0 else Offset(p, i - 1) + p.members[i - 1].size
  }

  function NewPackage(count: nat, now: int): Package {
    Package(Building, None, None, None, count, 0, 0, None, now, None, None, None, None, None)
  }

  function NewDelivery(plan: Plan): Delivery {
    Delivery(Pending, plan, 0, 0, None, None, None, None)
  }

  /** A package row as a reservation leaves it: to be built, and due at any second. */
  ghost predicate FreshPackage(pkg: Package, count: nat, now: int) {
    && pkg.state.Building? && pkg.memberCount == count && pkg.createdAt == now
    && pkg.buildAttempts == 0 && pkg.nextBuildAt == 0 && pkg.buildError.None?
    && pkg.size.None? && pkg.checksum.None? && pkg.manifestChecksum.None? && pkg.sealedAt.None?
    && pkg.purgeAfter.None? && pkg.nextPurgeAt.None? && pkg.purgeError.None? && pkg.purgedAt.None?
  }

  /** A delivery row as a reservation leaves it: never tried, and due at any second. */
  ghost predicate FreshDelivery(d: Delivery, plan: Plan) {
    && d.state.Pending? && d.plan == plan && d.attempts == 0 && d.nextAttempt == 0
    && d.lastError.None? && d.remoteId.None? && d.progress.None? && d.deliveredAt.None?
  }

  function InsertPackage(t: Tables, p: PackageId, pkg: Package, plan: Plan): Tables {
    t.(packages := t.packages[p := pkg],
       deliveries := t.deliveries[DeliveryKey(p, SINK) := NewDelivery(plan)])
  }

  /** One turn of the member loop: insert the row and claim the artifact. */
  function InsertMember(t: Tables, p: PackageId, ordinal: nat, o: string, offset: int): Tables
    requires o in t.artifacts
  {
    var a := t.artifacts[o];
    t.(members := t.members[o := Member(p, ordinal, offset, a.size, a.checksum)],
       artifacts := t.artifacts[o := a.(packageId := Some(p))])
  }

  /** The first n turns of the member loop. */
  function InsertMembers(t: Tables, p: PackageId, n: nat): (r: Tables)
    requires n <= |p.members|
    requires forall i :: 0 <= i < |p.members| ==> p.members[i].objectId in t.artifacts
    ensures r.artifacts.Keys == t.artifacts.Keys
  {
    if n == 0 then t
    else InsertMember(InsertMembers(t, p, n - 1), p, n - 1, p.members[n - 1].objectId, Offset(p, n - 1))
  }

  function Derive(t: Tables, project: string, packager: Packager, selected: seq<string>): PackageId
    requires Known(t, selected)
  {
    Identity(packager, project, MemberKeys(t, selected))
  }

  function InsertReservation(t: Tables, p: PackageId, plan: Plan, keepDraining: bool, now: int): Tables
    requires forall i :: 0 <= i < |p.members| ==> p.members[i].objectId in t.artifacts
  {
    SetDraining(
      InsertMembers(InsertPackage(t, p, NewPackage(|p.members|, now), plan), p, |p.members|),
      p.project, keepDraining)
  }

  // ---------- building ----------

  predicate IsBuilding(t: Tables, p: PackageId) {
    p in t.packages && t.packages[p].state.Building?
  }

  predicate IsSealed(t: Tables, p: PackageId) {
    p in t.packages && t.packages[p].state.Sealed?
  }

  predicate BuildDue(t: Tables, p: PackageId, now: int) {
    IsBuilding(t, p) && t.packages[p].nextBuildAt <= now
  }

  /** nextBuildingPackage, for the row it selected. */
  function StartBuild(t: Tables, p: PackageId): Tables
    requires p in t.packages
  {
    var pkg := t.packages[p];
    t.(packages := t.packages[p := pkg.(buildAttempts := pkg.buildAttempts + 1, buildError := None)])
  }

  function Seal(t: Tables, p: PackageId, size: int, checksum: string, manifestChecksum: string, now: int): Tables {
    if IsBuilding(t, p) then
      t.(packages := t.packages[p := t.packages[p].(
        state := Sealed, size := Some(size), checksum := Some(checksum),
        manifestChecksum := Some(manifestChecksum), buildError := None, sealedAt := Some(now))])
    else t
  }

  function MarkBuildRetry(t: Tables, p: PackageId, message: string, retryAt: int): Tables {
    if IsBuilding(t, p) then
      t.(packages := t.packages[p := t.packages[p].(
        nextBuildAt := retryAt, buildError := Some(Failure(Truncate(message))))])
    else t
  }

  // ---------- isolation ----------

  function TruncateAll(invalid: map<string, string>): map<string, string> {
    map o | o in invalid :: Truncate(invalid[o])
  }

  function IsolateArtifact(a: Artifact, p: PackageId, errors: map<string, string>, o: string): Artifact {
    if a.packageId != Some(p) then a
    else if o in errors then a.(packagingError := Some(errors[o]))
    else if a.packagingError.Some? then a
    else a.(packageId := None)
  }

  /** Member rows that the DELETE spares: those of other packages, and those whose artifact still
      names this package and carries an error. */
  predicate KeepsMember(t: Tables, p: PackageId, errors: map<string, string>, o: string)
    requires o in t.members
  {
    || t.members[o].packageId != p
    || (&& o in t.artifacts
        && t.artifacts[o].packageId == Some(p)
        && (o in errors || t.artifacts[o].packagingError.Some?))
  }

  /** isolateInvalidMembers, as one transaction. */
  function Isolate(t: Tables, p: PackageId, invalid: map<string, string>): Tables {
    var errors := TruncateAll(invalid);
    t.(artifacts := map o | o in t.artifacts :: IsolateArtifact(t.artifacts[o], p, errors, o),
       members := map o | o in t.members && KeepsMember(t, p, errors, o) :: t.members[o],
       packages := if IsBuilding(t, p)
                   then t.packages[p := t.packages[p].(
                     state := Blocked, memberCount := |invalid|, buildError := Some(InvalidMembers(errors)))]
                   else t.packages)
  }

  // ---------- source purge ----------

  predicate SourcePurgeDue(t: Tables, o: string, now: int) {
    && o in t.artifacts
    && t.artifacts[o].packageId.Some?
    && IsSealed(t, t.artifacts[o].packageId.value)
    && t.artifacts[o].sourcePurgedAt.None?
    && t.artifacts[o].nextSourcePurge <= now
  }

  predicate SourceUnpurged(t: Tables, o: string) {
    o in t.artifacts && t.artifacts[o].sourcePurgedAt.None?
  }

  function MarkSourcePurged(t: Tables, o: string, now: int): Tables {
    if SourceUnpurged(t, o) then
      t.(artifacts := t.artifacts[o := t.artifacts[o].(sourcePurgedAt := Some(now), sourcePurgeError := None)])
    else t
  }

  function MarkSourcePurgeRetry(t: Tables, o: string, message: string, retryAt: int): Tables {
    if SourceUnpurged(t, o) then
      t.(artifacts := t.artifacts[o := t.artifacts[o].(
        nextSourcePurge := retryAt, sourcePurgeError := Some(Truncate(message)))])
    else t
  }

  // ---------- deliveries ----------

  predicate Claimable(t: Tables, k: DeliveryKey, now: int) {
    && k in t.deliveries
    && IsSealed(t, k.packageId)
    && (t.deliveries[k].state.Pending? || t.deliveries[k].state.RetryWait?)
    && t.deliveries[k].nextAttempt <= now
  }

  predicate InDelivery(t: Tables, k: DeliveryKey) {
    k in t.deliveries && t.deliveries[k].state.Delivering?
  }

  /** claimPackageDelivery, for the row it selected. */
  function Claim(t: Tables, k: DeliveryKey): Tables
    requires k in t.deliveries
  {
    var d := t.deliveries[k];
    t.(deliveries := t.deliveries[k := d.(state := Delivering, attempts := d.attempts + 1, progress := None)])
  }

  function Later(current: Option<int>, candidate: int): Option<int> {
    if current.None? || current.value < candidate then Some(candidate) else current
  }

  /** markPackageDelivered, as one transaction. */
  function MarkDelivered(t: Tables, k: DeliveryKey, remoteId: string, deliveredAt: int, purgeAfter: int): Tables {
    if !InDelivery(t, k) then t
    else
      t.(deliveries := t.deliveries[k := t.deliveries[k].(
           state := Delivered, nextAttempt := 0, remoteId := Some(remoteId), lastError := None,
           progress := None, deliveredAt := Some(deliveredAt))],
         packages := if k.packageId in t.packages
                     then t.packages[k.packageId := t.packages[k.packageId].(
                       purgeAfter := Later(t.packages[k.packageId].purgeAfter, purgeAfter),
                       nextPurgeAt := Later(t.packages[k.packageId].nextPurgeAt, purgeAfter))]
                     else t.packages)
  }

  function MarkRetry(t: Tables, k: DeliveryKey, message: string, retryAt: int): Tables {
    if InDelivery(t, k) then
      t.(deliveries := t.deliveries[k := t.deliveries[k].(
        state := RetryWait, nextAttempt := retryAt, lastError := Some(Truncate(message)), progress := None)])
    else t
  }

  function MarkProgress(t: Tables, k: DeliveryKey, snapshot: Snapshot): Tables {
    if InDelivery(t, k) then
      t.(deliveries := t.deliveries[k := t.deliveries[k].(progress := Some(snapshot))])
    else t
  }

  const INTERRUPTED := "delivery process stopped before recording an outcome"

  /** recoverInterruptedDeliveries, run once at start. */
  function Recover(t: Tables, now: int): Tables {
    t.(deliveries := map k | k in t.deliveries ::
      if t.deliveries[k].state.Delivering?
      then t.deliveries[k].(state := RetryWait, nextAttempt := now, lastError := Some(INTERRUPTED), progress := None)
      else t.deliveries[k])
  }

  // ---------- package purge ----------

  predicate AllDelivered(t: Tables, p: PackageId) {
    forall k :: k in t.deliveries && k.packageId == p ==> t.deliveries[k].state.Delivered?
  }

  predicate PurgeDue(t: Tables, p: PackageId, now: int) {
    && IsSealed(t, p)
    && t.packages[p].purgedAt.None?
    && t.packages[p].nextPurgeAt.Some? && t.packages[p].nextPurgeAt.value <= now
    && AllDelivered(t, p)
  }

  predicate Unpurged(t: Tables, p: PackageId) {
    IsSealed(t, p) && t.packages[p].purgedAt.None?
  }

  function MarkPurged(t: Tables, p: PackageId, now: int): Tables {
    if Unpurged(t, p) then
      t.(packages := t.packages[p := t.packages[p].(purgedAt := Some(now), nextPurgeAt := None, purgeError := None)])
    else t
  }

  function MarkPurgeRetry(t: Tables, p: PackageId, message: string, retryAt: int): Tables {
    if Unpurged(t, p) then
      t.(packages := t.packages[p := t.packages[p].(nextPurgeAt := Some(retryAt), purgeError := Some(message))])
    else t
  }
}
