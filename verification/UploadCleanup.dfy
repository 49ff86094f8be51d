/**
 The receiver's bookkeeping of running PATCH requests and its sweep of abandoned uploads. File system
 calls that may fail, the clock, and what other requests do before the scan looks at an upload or while
 the sweep waits for its lock enter as the glance and the encounter that one upload meets with.
 */
module UploadCleanup {
  import opened Wrappers
  import opened Sequences
  import opened Clock
  import opened Ordering

  /** time.Time's zero value, in nanoseconds since the Unix epoch. */
  const ZERO_TIME := -62135596800 * SECOND

  datatype DataFile = DataFile(mtime: int, length: nat)

  /** `readable`: the file can be read and holds JSON. */
  datatype InfoFile = InfoFile(mtime: int, project: string, size: int, readable: bool)

  /** What the receiver knows and stores about uploads. */
  datatype Shelf = Shelf(
    active: map<string, int>,
    data: map<string, DataFile>,
    infos: map<string, InfoFile>,
    attempts: map<string, int>,
    receipts: set<string>)

  datatype PartialUpload = PartialUpload(id: string, project: string, received: int, size: int, stale: bool)

  datatype StaleStats = StaleStats(count: int, received: int, total: int)

  datatype LockOutcome = Acquired | TimedOut | LockFailed

  datatype Event =
    | PatchBegins(o: string)
    | PatchEnds(o: string, at: int, recorded: bool)
    | Appends(o: string, at: int, n: nat)
    | Accepts(o: string)

  /** `meanwhile` happens before the lock is held and `now` is read under it; the faults are the index of
      the file whose stat or removal fails, a failing receipt stat and a failing directory sync. */
  datatype Encounter = Encounter(
    lock: LockOutcome,
    meanwhile: seq<Event>,
    now: int,
    receiptFault: bool,
    statFault: Option<nat>,
    removeFault: Option<nat>,
    syncFault: bool)

  /** `before` happens before the scan looks at an upload, at `now`; the faults are the receipt's stat,
      the data file's, and the index of the file whose time is not found out. */
  datatype Glance = Glance(before: seq<Event>, now: int, receipt: bool, data: bool, stat: Option<nat>)

  datatype Lookup = Found(at: int) | Missing | LookupFailed

  function Count(active: map<string, int>, o: string): int {
    if o in active then active[o] else 0
  }

  predicate IsActive(s: Shelf, o: string) {
    Count(s.active, o) > 0
  }

  /** The three files that carry times: .attempt, data and .info. */
  function ModTime(s: Shelf, o: string, i: nat): Option<int> {
    if i == 0 then (if o in s.attempts then Some(s.attempts[o]) else None)
    else if i == 1 then (if o in s.data then Some(s.data[o].mtime) else None)
    else (if o in s.infos then Some(s.infos[o].mtime) else None)
  }

  /** `at` is the latest time after the zero time among the files present. */
  ghost predicate IsLastEnd(s: Shelf, o: string, at: int) {
    && at > ZERO_TIME
    && (exists i: nat :: i < 3 && ModTime(s, o, i) == Some(at))
    && forall i: nat :: i < 3 && ModTime(s, o, i).Some? ==> ModTime(s, o, i).value <= at
  }

  ghost predicate NoEnd(s: Shelf, o: string) {
    forall i: nat :: i < 3 && ModTime(s, o, i).Some? ==> ModTime(s, o, i).value <= ZERO_TIME
  }

  /** Nobody works on the upload, it was not accepted, and its last sign of life is old enough. */
  ghost predicate Expired(s: Shelf, o: string, retention: int, now: int) {
    && !IsActive(s, o) && o !in s.receipts
    && exists at :: IsLastEnd(s, o, at) && at + retention <= now
  }

  /** An expired upload is served by no request, has no receipt, and shows no sign of life within the
      retention: neither the recorded end of an attempt, nor a write to its data or its metadata. */
  lemma ExpiredMeansQuiet(s: Shelf, o: string, retention: int, now: int)
    ensures Expired(s, o, retention, now) ==>
      && !(o in s.active && s.active[o] > 0) && o !in s.receipts
      && (o in s.attempts ==> s.attempts[o] + retention <= now)
      && (o in s.data ==> s.data[o].mtime + retention <= now)
      && (o in s.infos ==> s.infos[o].mtime + retention <= now)
  {
    if Expired(s, o, retention, now) {
      var at :| IsLastEnd(s, o, at) && at + retention <= now;
      assert o in s.attempts ==> ModTime(s, o, 0) == Some(s.attempts[o]);
      assert o in s.data ==> ModTime(s, o, 1) == Some(s.data[o].mtime);
      assert o in s.infos ==> ModTime(s, o, 2) == Some(s.infos[o].mtime);
    }
  }

  /** and such an upload has expired, if one of its files is there. */
  lemma QuietMeansExpired(s: Shelf, o: string, retention: int, now: int)
    requires !(o in s.active && s.active[o] > 0) && o !in s.receipts && o in s.infos && s.infos[o].mtime > ZERO_TIME
    requires o in s.attempts ==> s.attempts[o] + retention <= now
    requires o in s.data ==> s.data[o].mtime + retention <= now
    requires s.infos[o].mtime + retention <= now
    ensures Expired(s, o, retention, now)
  {
    var last := s.infos[o].mtime;
    var i := 2;
    if o in s.data && s.data[o].mtime > last {
      last, i := s.data[o].mtime, 1;
    }
    if o in s.attempts && s.attempts[o] > last {
      last, i := s.attempts[o], 0;
    }
    assert ModTime(s, o, i) == Some(last);
    assert IsLastEnd(s, o, last);
  }

  /** setUploadAttemptActive: a count that falls to zero leaves the map. */
  function Adjusted(active: map<string, int>, o: string, delta: int): map<string, int> {
    if Count(active, o) + delta > 0 then active[o := Count(active, o) + delta] else active - {o}
  }

  function Apply(s: Shelf, e: Event): Shelf {
    match e
    case PatchBegins(o) => s.(active := Adjusted(s.active, o, 1))
    case PatchEnds(o, at, recorded) => EndAttempt(s, o, at, recorded)
    case Appends(o, at, n) =>
      if o in s.data && o !in s.receipts then s.(data := s.data[o := DataFile(at, s.data[o].length + n)]) else s
    case Accepts(o) => if o in s.data && o in s.infos then s.(receipts := s.receipts + {o}) else s
  }

  /** recordUploadAttemptEnd, then one request less. */
  function EndAttempt(s: Shelf, o: string, at: int, recorded: bool): Shelf {
    var attempts :=
      if !recorded then s.attempts
      else if o in s.receipts then s.attempts - {o}
      else if o in s.infos then s.attempts[o := at]
      else s.attempts;
    s.(attempts := attempts, active := Adjusted(s.active, o, -1))
  }

  function After(s: Shelf, events: seq<Event>): Shelf
    decreases |events|
  {
    if events == [] then s else After(Apply(s, events[0]), events[1..])
  }

  ghost function Opened(open: multiset<string>, e: Event): multiset<string> {
    match e
    case PatchBegins(o) => open + multiset{o}
    case PatchEnds(o, _, _) => open - multiset{o}
    case Appends(_, _, _) => open
    case Accepts(_) => open
  }

  /** The requests still being served after the events. */
  ghost function OpenAfter(open: multiset<string>, events: seq<Event>): multiset<string>
    decreases |events|
  {
    if events == [] then open else OpenAfter(Opened(open, events[0]), events[1..])
  }

  /** The map counts the running requests and holds no other keys. */
  ghost predicate Counts(active: map<string, int>, open: multiset<string>) {
    && (forall o :: o in active <==> o in open)
    && (forall o :: o in open ==> active[o] == open[o])
  }

  lemma CountsStep(s: Shelf, open: multiset<string>, e: Event)
    requires Counts(s.active, open)
    ensures Counts(Apply(s, e).active, Opened(open, e))
  {
  }

  lemma {:induction false} CountsAfter(s: Shelf, open: multiset<string>, events: seq<Event>)
    requires Counts(s.active, open)
    ensures Counts(After(s, events).active, OpenAfter(open, events))
    decreases |events|
  {
    if events != [] {
      CountsStep(s, open, events[0]);
      CountsAfter(Apply(s, events[0]), Opened(open, events[0]), events[1..]);
    }
  }

  /** The first n of data, .info and .attempt removed. */
  function Without(s: Shelf, o: string, n: nat): Shelf {
    s.(data := if n >= 1 then s.data - {o} else s.data,
       infos := if n >= 2 then s.infos - {o} else s.infos,
       attempts := if n >= 3 then s.attempts - {o} else s.attempts)
  }

  /** Data only grows, up to acceptance, and what is accepted has its files. */
  ghost predicate Grows(s: Shelf, v: Shelf) {
    && v.infos == s.infos && v.data.Keys == s.data.Keys && s.receipts <= v.receipts
    && (forall o :: o in s.data ==> v.data[o].length >= s.data[o].length)
    && (forall o :: o in s.data && o in s.receipts ==> v.data[o] == s.data[o])
    && (forall o :: o in v.receipts && o !in s.receipts ==> o in s.data && o in s.infos)
  }

  lemma {:induction false} MeanwhileGrows(s: Shelf, events: seq<Event>)
    ensures Grows(s, After(s, events))
    decreases |events|
  {
    if events != [] {
      assert Grows(s, Apply(s, events[0]));
      MeanwhileGrows(Apply(s, events[0]), events[1..]);
    }
  }

  /** What one cleanup did to the shelf s: nothing, or to an expired upload alone. */
  ghost predicate Cleaned(s: Shelf, v: Shelf, o: string, retention: int, now: int, c: Cleanup) {
    && (c.removed ==> !c.failed && !c.remainsStale && Expired(s, o, retention, now) && v == Without(s, o, 3))
    && (v == s || (Expired(s, o, retention, now) && exists n: nat :: n <= 3 && v == Without(s, o, n)))
    && (!c.removed && !c.failed ==> v == s)
  }

  /** What cleanupStalePartialUpload answers. */
  datatype Cleanup = Cleanup(removed: bool, remainsStale: bool, failed: bool)

  const SKIPPED := Cleanup(false, false, false)

  /** No call fails, but the lock may be held by others. */
  predicate Sound(e: Encounter) {
    !e.lock.LockFailed? && !e.receiptFault && e.statFault.None? && e.removeFault.None? && !e.syncFault
  }

  /** The whole of one cleanup from the shelf `before`: an active upload is skipped; otherwise others act
      first, and the lock decides. */
  ghost predicate CleanedUp(before: Shelf, v: Shelf, o: string, e: Encounter, retention: int, c: Cleanup) {
    var s := if IsActive(before, o) then before else After(before, e.meanwhile);
    && Cleaned(s, v, o, retention, e.now, c)
    && (IsActive(before, o) ==> c == SKIPPED)
    && (!IsActive(before, o) && e.lock.LockFailed? ==> c == Cleanup(false, true, true))
    && (!IsActive(before, o) && e.lock.TimedOut? ==> c == Cleanup(false, !IsActive(s, o), false))
    && (!IsActive(before, o) && e.lock.Acquired? ==> UnderLock(s, v, o, e, retention, c))
    && (Sound(e) ==> !c.failed)
  }

  /** With the lock held an expired upload is removed unless a call fails, and any other is left. */
  ghost predicate UnderLock(s: Shelf, v: Shelf, o: string, e: Encounter, retention: int, c: Cleanup) {
    && (!c.removed && !c.failed ==> !Expired(s, o, retention, e.now) && !c.remainsStale)
    && (c.failed ==> c.remainsStale || (e.syncFault && v == Without(s, o, 3)))
    && (Sound(e) ==> !c.failed)
  }

  // ---------- What a sweep does ----------

  /** No interference either. */
  predicate Calm(e: Encounter) {
    Sound(e) && e.lock.Acquired? && e.meanwhile == []
  }

  /** One scanned upload, with its staleness at the time of the scan. */
  ghost predicate Describes(s: Shelf, u: PartialUpload, retention: int, now: int) {
    && u.id in s.infos && u.id !in s.receipts
    && u.project == s.infos[u.id].project && u.size == s.infos[u.id].size
    && u.received == (if u.id in s.data then s.data[u.id].length else 0)
    && (u.stale <==> Expired(s, u.id, retention, now))
  }

  function Ids(uploads: seq<PartialUpload>): set<string> {
    set i | 0 <= i < |uploads| :: uploads[i].id
  }

  ghost predicate DistinctIds(uploads: seq<PartialUpload>) {
    forall a, b :: 0 <= a < b < |uploads| ==> uploads[a].id != uploads[b].id
  }

  /** The shelf when the scan has looked at these names, from the shelf s of the listing. */
  function ScanShelf(s: Shelf, names: seq<string>, glances: string -> Glance): Shelf {
    if names == [] then s
    else
      var n := |names| - 1;
      After(ScanShelf(s, names[..n], glances), glances(names[n]).before)
  }

  lemma {:induction false} ScanGrows(s: Shelf, names: seq<string>, glances: string -> Glance)
    ensures Grows(s, ScanShelf(s, names, glances))
  {
    if names != [] {
      var n := |names| - 1;
      ScanGrows(s, names[..n], glances);
      MeanwhileGrows(ScanShelf(s, names[..n], glances), glances(names[n]).before);
    }
  }

  /** The names looked at, in order, and the shelf that each look met. */
  datatype ScanTrace = ScanTrace(names: seq<string>, moments: map<string, Shelf>)

  ghost predicate MomentAt(s: Shelf, scan: ScanTrace, glances: string -> Glance, i: nat)
    requires i < |scan.names|
  {
    && scan.names[i] in s.infos && scan.names[i] in scan.moments
    && scan.moments[scan.names[i]] == ScanShelf(s, scan.names[..i + 1], glances)
  }

  ghost predicate IsScan(s: Shelf, scan: ScanTrace, glances: string -> Glance) {
    forall i: nat :: i < |scan.names| ==> MomentAt(s, scan, glances, i)
  }

  ghost predicate FoundAt(scan: ScanTrace, u: PartialUpload, glances: string -> Glance, retention: int) {
    u.id in scan.moments && Describes(scan.moments[u.id], u, retention, glances(u.id).now)
  }

  /** The scan found each of its names that was not accepted when it looked, once, as it was then. */
  ghost predicate Finds(scan: ScanTrace, uploads: seq<PartialUpload>, glances: string -> Glance, retention: int) {
    && (forall j :: 0 <= j < |uploads| ==> FoundAt(scan, uploads[j], glances, retention))
    && (forall o :: o in Ids(uploads) <==> o in scan.names && o in scan.moments && o !in scan.moments[o].receipts)
    && DistinctIds(uploads)
  }

  /** What looking at one upload brought. */
  datatype Look = Seen(upload: PartialUpload) | Accepted | Failed

  ghost predicate LookDone(s: Shelf, o: string, glance: Glance, retention: int, look: Look) {
    match look
    case Seen(u) => u.id == o && Describes(s, u, retention, glance.now)
    case Accepted => o in s.receipts
    case Failed =>
      || glance.receipt
      || (o !in s.receipts && o in s.infos && (!s.infos[o].readable || glance.data || glance.stat.Some?))
  }

  /** The scan looked at every upload with metadata. */
  ghost predicate Scanned(s: Shelf, scan: ScanTrace, uploads: seq<PartialUpload>, glances: string -> Glance, retention: int) {
    && IsScan(s, scan, glances) && Finds(scan, uploads, glances, retention)
    && (forall o :: o in s.infos <==> o in scan.names)
  }

  /** The uploads that had expired when the scan's clock was read for them. */
  ghost function ExpiredIds(s: Shelf, glances: string -> Glance, retention: int): set<string> {
    set o | o in s.infos && Expired(s, o, retention, glances(o).now)
  }

  function StaleIds(uploads: seq<PartialUpload>, n: nat): set<string>
    requires n <= |uploads|
  {
    set i | 0 <= i < n && uploads[i].stale :: uploads[i].id
  }

  function Gone(s: Shelf, ids: set<string>): Shelf {
    s.(data := s.data - ids, infos := s.infos - ids, attempts := s.attempts - ids)
  }

  /** Files only go or grow, and none of an upload that is accepted by the end goes. */
  ghost predicate AcceptedKept(s: Shelf, v: Shelf) {
    && (forall o :: o in v.data ==> o in s.data && v.data[o].length >= s.data[o].length)
    && (forall o :: o in v.data && o in s.receipts ==> v.data[o] == s.data[o])
    && (forall o :: o in v.infos ==> o in s.infos && v.infos[o] == s.infos[o])
    && s.receipts <= v.receipts
    && (forall o :: o in v.receipts && o !in s.receipts ==> o in s.data && o in s.infos)
    && (forall o :: o in v.receipts && o in s.data ==> o in v.data)
    && (forall o :: o in v.receipts && o in s.infos ==> o in v.infos)
  }

  lemma CleanedUpKeepsAccepted(s: Shelf, v: Shelf, o: string, e: Encounter, retention: int, c: Cleanup)
    requires CleanedUp(s, v, o, e, retention, c)
    ensures AcceptedKept(s, v)
  {
    MeanwhileGrows(s, e.meanwhile);
  }

  lemma KeptInTurn(s: Shelf, u: Shelf, v: Shelf)
    requires AcceptedKept(s, u) && AcceptedKept(u, v)
    ensures AcceptedKept(s, v)
  {
  }

  /** Removing other uploads does not change whether this one is expired. */
  lemma ExpiredAlone(s: Shelf, ids: set<string>, o: string, retention: int, now: int)
    requires o !in ids
    ensures Expired(Gone(s, ids), o, retention, now) <==> Expired(s, o, retention, now)
  {
    var v := Gone(s, ids);
    assert forall i: nat :: ModTime(v, o, i) == ModTime(s, o, i);
    assert forall at :: IsLastEnd(v, o, at) <==> IsLastEnd(s, o, at);
  }

  lemma StaleIdsNext(uploads: seq<PartialUpload>, n: nat)
    requires n < |uploads| && DistinctIds(uploads)
    ensures uploads[n].id !in StaleIds(uploads, n)
    ensures StaleIds(uploads, n + 1) == StaleIds(uploads, n) + if uploads[n].stale then {uploads[n].id} else {}
  {
  }

  lemma WithoutIsGone(s: Shelf, ids: set<string>, o: string)
    ensures Without(Gone(s, ids), o, 3) == Gone(s, ids + {o})
  {
  }

  /** Every encounter is calm, and what the scan found stale has expired by then. */
  ghost predicate Undisturbed(s: Shelf, uploads: seq<PartialUpload>, encounters: string -> Encounter, retention: int) {
    forall j :: 0 <= j < |uploads| && uploads[j].stale ==>
      Calm(encounters(uploads[j].id)) && Expired(s, uploads[j].id, retention, encounters(uploads[j].id).now)
  }

  /** One calm cleanup of an expired upload takes exactly its files. */
  lemma CalmCleanup(start: Shelf, v: Shelf, uploads: seq<PartialUpload>, n: nat, e: Encounter, retention: int, c: Cleanup)
    requires DistinctIds(uploads) && n < |uploads| && uploads[n].stale
    requires Calm(e) && Expired(start, uploads[n].id, retention, e.now)
    requires CleanedUp(Gone(start, StaleIds(uploads, n)), v, uploads[n].id, e, retention, c)
    ensures c == Cleanup(true, false, false) && v == Gone(start, StaleIds(uploads, n + 1))
    ensures |StaleIds(uploads, n + 1)| == |StaleIds(uploads, n)| + 1
  {
    StaleIdsNext(uploads, n);
    ExpiredAlone(start, StaleIds(uploads, n), uploads[n].id, retention, e.now);
    WithoutIsGone(start, StaleIds(uploads, n), uploads[n].id);
  }

  /** No call of scan or sweep fails or is disturbed, and the clock does not run backwards. */
  ghost predicate AllCalm(glances: string -> Glance, encounters: string -> Encounter) {
    forall o :: glances(o).before == [] && Calm(encounters(o)) && glances(o).now <= encounters(o).now
  }

  lemma {:induction false} CalmScan(s: Shelf, names: seq<string>, glances: string -> Glance)
    requires forall o :: glances(o).before == []
    ensures ScanShelf(s, names, glances) == s
  {
    if names != [] {
      CalmScan(s, names[..|names| - 1], glances);
    }
  }

  /** A calm scan finds the unaccepted uploads of one shelf. */
  lemma CalmMoments(s: Shelf, scan: ScanTrace, uploads: seq<PartialUpload>, glances: string -> Glance, retention: int)
    requires Scanned(s, scan, uploads, glances, retention)
    requires forall o :: glances(o).before == []
    ensures forall o :: o in s.infos ==> o in scan.moments && scan.moments[o] == s
  {
    forall o | o in s.infos ensures o in scan.moments && scan.moments[o] == s {
      var i :| 0 <= i < |scan.names| && scan.names[i] == o;
      assert MomentAt(s, scan, glances, i);
      CalmScan(s, scan.names[..i + 1], glances);
    }
  }

  lemma ExpiredLater(s: Shelf, o: string, retention: int, now: int, later: int)
    requires Expired(s, o, retention, now) && now <= later
    ensures Expired(s, o, retention, later)
  {
  }

  lemma StaleAreExpired(s: Shelf, scan: ScanTrace, uploads: seq<PartialUpload>, glances: string -> Glance,
                        encounters: string -> Encounter, retention: int)
    requires Scanned(s, scan, uploads, glances, retention) && AllCalm(glances, encounters)
    ensures StaleIds(uploads, |uploads|) == ExpiredIds(s, glances, retention)
    ensures Undisturbed(s, uploads, encounters, retention)
  {
    CalmMoments(s, scan, uploads, glances, retention);
    forall j | 0 <= j < |uploads|
      ensures Describes(s, uploads[j], retention, glances(uploads[j].id).now)
      ensures uploads[j].stale ==> Expired(s, uploads[j].id, retention, encounters(uploads[j].id).now)
    {
      assert uploads[j].id in Ids(uploads);
      if uploads[j].stale {
        ExpiredLater(s, uploads[j].id, retention, glances(uploads[j].id).now, encounters(uploads[j].id).now);
      }
    }
    forall o | o in ExpiredIds(s, glances, retention) ensures o in StaleIds(uploads, |uploads|) {
      assert o in Ids(uploads);
    }
  }

  // ---------- Statistics ----------

  function StatsOf(stats: map<string, StaleStats>, project: string): StaleStats {
    if project in stats then stats[project] else StaleStats(0, 0, 0)
  }

  /** The uploads of one project, in order. */
  function OfProject(uploads: seq<PartialUpload>, project: string): seq<PartialUpload> {
    if uploads == [] then []
    else
      var front := OfProject(uploads[..|uploads| - 1], project);
      if uploads[|uploads| - 1].project == project then front + [uploads[|uploads| - 1]] else front
  }

  function Received(uploads: seq<PartialUpload>): seq<int> {
    seq(|uploads|, i requires 0 <= i < |uploads| => uploads[i].received)
  }

  function Declared(uploads: seq<PartialUpload>): seq<int> {
    seq(|uploads|, i requires 0 <= i < |uploads| => uploads[i].size)
  }

  /** The snapshot counts and adds up, per project, exactly the given uploads. */
  ghost predicate Tallies(stats: map<string, StaleStats>, uploads: seq<PartialUpload>) {
    forall project :: StatsOf(stats, project) == Tally(uploads, project)
  }

  function Tally(uploads: seq<PartialUpload>, project: string): StaleStats {
    var own := OfProject(uploads, project);
    StaleStats(|own|, Sum(Received(own)), Sum(Declared(own)))
  }

  lemma TallyNext(uploads: seq<PartialUpload>, next: PartialUpload, project: string)
    ensures
      var before := Tally(uploads, project);
      Tally(uploads + [next], project) ==
        if next.project == project
        then StaleStats(before.count + 1, before.received + next.received, before.total + next.size)
        else before
  {
    var own := OfProject(uploads, project);
    assert (uploads + [next])[..|uploads|] == uploads;
    assert Received(own + [next])[..|own|] == Received(own);
    assert Declared(own + [next])[..|own|] == Declared(own);
  }

  function CountIn(stats: map<string, StaleStats>, u: PartialUpload): map<string, StaleStats> {
    var project := StatsOf(stats, u.project);
    stats[u.project := StaleStats(project.count + 1, project.received + u.received, project.total + u.size)]
  }

  lemma TalliesNext(stats: map<string, StaleStats>, uploads: seq<PartialUpload>, next: PartialUpload)
    requires Tallies(stats, uploads)
    ensures Tallies(CountIn(stats, next), uploads + [next])
  {
    forall project ensures StatsOf(CountIn(stats, next), project) == Tally(uploads + [next], project) {
      TallyNext(uploads, next, project);
    }
  }

  class Receiver {
    var activeAttempts: map<string, int>
    var data: map<string, DataFile>
    var infos: map<string, InfoFile>
    var attempts: map<string, int>
    var receipts: set<string>
    var staleUploads: Option<map<string, StaleStats>>
    const retention: int

    /** The PATCH requests being served now, by object. */
    ghost var open: multiset<string>

    function Contents(): Shelf
      reads this
    {
      Shelf(activeAttempts, data, infos, attempts, receipts)
    }

    ghost predicate Valid()
      reads this
    {
      Counts(activeAttempts, open)
    }

    constructor (retention: int)
      ensures Valid() && open == multiset{} && this.retention == retention
      ensures Contents() == Shelf(map[], map[], map[], map[], {}) && staleUploads == None
    {
      activeAttempts, data, infos, attempts, receipts := map[], map[], map[], map[], {};
      staleUploads, open, this.retention := None, multiset{}, retention;
    }

    // ---------- Running requests ----------

    method SetUploadAttemptActive(o: string, delta: int)
      modifies `activeAttempts
      ensures activeAttempts == Adjusted(old(activeAttempts), o, delta)
    {
      activeAttempts := activeAttempts[o := Count(activeAttempts, o) + delta];
      if activeAttempts[o] <= 0 {
        activeAttempts := activeAttempts - {o};
      }
    }

    /** An upload is active exactly while some PATCH on it is being served. */
    method UploadAttemptActive(o: string) returns (active: bool)
      requires Valid()
      ensures active <==> o in open
      ensures active <==> IsActive(Contents(), o)
    {
      active := o in activeAttempts && activeAttempts[o] > 0;
    }

    method BeginPatch(o: string)
      requires Valid()
      modifies `activeAttempts, `open
      ensures Valid() && open == old(open) + multiset{o}
      ensures Contents() == Apply(old(Contents()), PatchBegins(o))
    {
      SetUploadAttemptActive(o, 1);
      open := open + multiset{o};
    }

    /** The deferred end of trackUploadAttempts: the time is recorded, or logged as not recorded, before
        the request is forgotten. */
    method EndPatch(o: string, at: int, recorded: bool)
      requires Valid() && o in open
      modifies `activeAttempts, `open, `attempts
      ensures Valid() && open == old(open) - multiset{o}
      ensures Contents() == Apply(old(Contents()), PatchEnds(o, at, recorded))
    {
      CountsStep(Contents(), open, PatchEnds(o, at, recorded));
      if recorded {
        RecordUploadAttemptEnd(o, at);
      }
      SetUploadAttemptActive(o, -1);
      open := open - multiset{o};
    }

    method RecordUploadAttemptEnd(o: string, at: int)
      modifies `attempts
      ensures o in receipts ==> attempts == old(attempts) - {o}
      ensures o !in receipts && o in infos ==> attempts == old(attempts)[o := at]
      ensures o !in receipts && o !in infos ==> attempts == old(attempts)
    {
      if o in receipts {
        attempts := attempts - {o};
        return;
      }
      if o !in infos {
        return;
      }
      attempts := attempts[o := at];
    }

    // ---------- Staleness ----------

    /** partialUploadLastAttemptEnd: the loop over the three files. */
    method LastAttemptEnd(o: string, statFault: Option<nat>) returns (end: Lookup)
      ensures end.Found? ==> IsLastEnd(Contents(), o, end.at)
      ensures end.Missing? ==> NoEnd(Contents(), o)
      ensures end.LookupFailed? <==> statFault.Some? && statFault.value < 3
    {
      var latest := ZERO_TIME;
      for i := 0 to 3
        invariant latest >= ZERO_TIME
        invariant latest > ZERO_TIME ==> exists j: nat :: j < i && ModTime(Contents(), o, j) == Some(latest)
        invariant forall j: nat :: j < i && ModTime(Contents(), o, j).Some? ==> ModTime(Contents(), o, j).value <= latest
        invariant statFault.Some? ==> statFault.value >= i
      {
        if statFault == Some(i) {
          return LookupFailed;
        }
        var time := ModTime(Contents(), o, i);
        if time.Some? && time.value > latest {
          latest := time.value;
        }
      }
      end := if latest > ZERO_TIME then Found(latest) else Missing;
    }

    /** partialUploadStale; None is an error. */
    method PartialUploadStale(o: string, statFault: Option<nat>, now: int) returns (stale: Option<bool>)
      requires Valid()
      ensures stale == Some(true) && o !in receipts ==> Expired(Contents(), o, retention, now)
      ensures stale == Some(false) ==> !Expired(Contents(), o, retention, now)
      ensures stale.None? ==> statFault.Some?
    {
      var active := UploadAttemptActive(o);
      if active {
        return Some(false);
      }
      var end := LastAttemptEnd(o, statFault);
      match end {
        case LookupFailed =>
          stale := None;
        case Missing =>
          stale := Some(false);
        case Found(at) =>
          stale := Some(!(at + retention > now));
      }
    }

    // ---------- Cleanup ----------

    /** cleanupStalePartialUpload: files go only if the upload is expired once its lock is held. */
    method CleanupStalePartialUpload(o: string, e: Encounter) returns (c: Cleanup)
      requires Valid()
      modifies `activeAttempts, `data, `infos, `attempts, `receipts, `open
      ensures Valid()
      ensures CleanedUp(old(Contents()), Contents(), o, e, retention, c)
    {
      var active := UploadAttemptActive(o);
      if active {
        return SKIPPED;
      }
      Meanwhile(e.meanwhile);
      if e.lock.LockFailed? {
        return Cleanup(false, true, true);
      }
      active := UploadAttemptActive(o);
      if e.lock.TimedOut? {
        return Cleanup(false, !active, false);
      }
      if active {
        return SKIPPED;
      }
      c := CleanupLocked(o, e);
    }

    /** What other requests do while the scan or the sweep is elsewhere or waits for a lock. */
    method Meanwhile(events: seq<Event>)
      requires Valid()
      modifies `activeAttempts, `data, `infos, `attempts, `receipts, `open
      ensures Valid() && open == OpenAfter(old(open), events)
      ensures Contents() == After(old(Contents()), events)
    {
      var s := After(Contents(), events);
      CountsAfter(Contents(), open, events);
      activeAttempts, data, infos, attempts, receipts := s.active, s.data, s.infos, s.attempts, s.receipts;
      open := OpenAfter(open, events);
    }

    /** The part that runs under the upload's lock, once no request is active. */
    method CleanupLocked(o: string, e: Encounter) returns (c: Cleanup)
      requires !IsActive(Contents(), o)
      modifies `data, `infos, `attempts
      ensures Cleaned(old(Contents()), Contents(), o, retention, e.now, c)
      ensures UnderLock(old(Contents()), Contents(), o, e, retention, c)
    {
      if e.receiptFault {
        return Cleanup(false, true, true);
      }
      if o in receipts {
        return SKIPPED;
      }
      var end := LastAttemptEnd(o, e.statFault);
      if end.LookupFailed? {
        return Cleanup(false, true, true);
      }
      if end.Missing? || end.at + retention > e.now {
        return SKIPPED;
      }
      assert Expired(Contents(), o, retention, e.now);
      var ok := RemoveFiles(o, e.removeFault);
      if !ok {
        return Cleanup(false, true, true);
      }
      c := Cleanup(!e.syncFault, false, e.syncFault);
    }

    /** The removal loop over data, .info and .attempt, up to the first failure. */
    method RemoveFiles(o: string, fault: Option<nat>) returns (ok: bool)
      modifies `data, `infos, `attempts
      ensures ok <==> fault.None? || fault.value >= 3
      ensures Contents() == Without(old(Contents()), o, if ok then 3 else fault.value)
    {
      for i := 0 to 3
        invariant Contents() == Without(old(Contents()), o, i)
        invariant fault.Some? ==> fault.value >= i
      {
        if fault == Some(i) {
          return false;
        }
        match i {
          case 0 => data := data - {o};
          case 1 => infos := infos - {o};
          case _ => attempts := attempts - {o};
        }
      }
      ok := true;
    }

    // ---------- The sweep ----------

    /** partialUploads: every upload with metadata at the listing that is not accepted when its turn comes,
        in name order and as it is then; None is an error. */
    method PartialUploads(listFails: bool, glances: string -> Glance)
      returns (uploads: Option<seq<PartialUpload>>, ghost scan: ScanTrace)
      requires Valid()
      modifies `activeAttempts, `data, `infos, `attempts, `receipts, `open
      ensures Valid() && IsScan(old(Contents()), scan, glances)
      ensures Contents() == ScanShelf(old(Contents()), scan.names, glances)
      ensures uploads.Some? ==> Scanned(old(Contents()), scan, uploads.value, glances, retention)
      ensures uploads.None? ==> !ScanSucceeds(old(Contents()), listFails, glances)
      ensures listFails ==> uploads.None? && scan.names == []
    {
      scan := ScanTrace([], map[]);
      if listFails {
        return None, scan;
      }
      ghost var start := Contents();
      var names := SelectAll(infos.Keys, NameRank);
      ListingHolds(infos.Keys, NameRank);
      var found: seq<PartialUpload> := [];
      for i := 0 to |names|
        invariant Valid() && infos == start.infos
        invariant scan.names == names[..i] && IsScan(start, scan, glances)
        invariant Contents() == ScanShelf(start, scan.names, glances)
        invariant Finds(scan, found, glances, retention)
      {
        var o := names[i];
        assert o in names && o !in scan.names && names[..i + 1] == names[..i] + [o];
        ghost var before := scan;
        var look := ScanUpload(o, glances(o));
        scan := ScanTrace(before.names + [o], before.moments[o := Contents()]);
        ScanNext(start, before, scan, o, Contents(), found, look, glances, retention);
        match look {
          case Failed =>
            LookFails(start, o, Contents(), listFails, glances, retention);
            return None, scan;
          case Accepted =>
          case Seen(u) => found := found + [u];
        }
      }
      assert names[..|names|] == names;
      uploads := Some(found);
    }

    /** One entry of the scan: what happened since the last one, partialUpload, and partialUploadStale. */
    method ScanUpload(o: string, glance: Glance) returns (look: Look)
      requires Valid() && o in infos
      modifies `activeAttempts, `data, `infos, `attempts, `receipts, `open
      ensures Valid() && Contents() == After(old(Contents()), glance.before)
      ensures LookDone(Contents(), o, glance, retention, look)
    {
      MeanwhileGrows(Contents(), glance.before);
      Meanwhile(glance.before);
      if glance.receipt {
        return Failed;
      }
      if o in receipts {
        return Accepted;
      }
      if !infos[o].readable || glance.data {
        return Failed;
      }
      var stale := PartialUploadStale(o, glance.stat, glance.now);
      if stale.None? {
        return Failed;
      }
      var received := if o in data then data[o].length else 0;
      look := Seen(PartialUpload(o, infos[o].project, received, infos[o].size, stale.value));
    }

    /** cleanupStalePartialUploads. After a scan that fails the sweep changes nothing. Otherwise every
        upload found stale gets its cleanup, and the statistics and the count are those of the outcomes.
        Without faults and interference exactly the expired uploads go. */
    method CleanupStalePartialUploads(listFails: bool, glances: string -> Glance, encounters: string -> Encounter)
      returns (removed: nat, failed: bool, ghost scan: ScanTrace, ghost sweep: Option<SweepTrace>)
      requires Valid()
      modifies this
      ensures Valid() && AcceptedKept(old(Contents()), Contents())
      ensures IsScan(old(Contents()), scan, glances)
      ensures sweep.None? ==>
        && failed && removed == 0 && !ScanSucceeds(old(Contents()), listFails, glances)
        && Contents() == ScanShelf(old(Contents()), scan.names, glances) && staleUploads == old(staleUploads)
      ensures sweep.Some? ==>
        && Scanned(old(Contents()), scan, sweep.value.uploads, glances, retention)
        && Swept(ScanShelf(old(Contents()), scan.names, glances), Contents(), sweep.value, encounters, retention)
        && staleUploads.Some? && Tallies(staleUploads.value, StillStale(sweep.value.uploads, sweep.value.outcomes))
        && removed == Removals(sweep.value.outcomes)
        && failed == AnyFailed(sweep.value.outcomes)
      ensures AllCalm(glances, encounters) && ScanSucceeds(old(Contents()), listFails, glances) ==>
        && !failed && staleUploads == Some(map[])
        && Contents() == Gone(old(Contents()), ExpiredIds(old(Contents()), glances, retention))
        && removed == |ExpiredIds(old(Contents()), glances, retention)|
    {
      ghost var start := Contents();
      var uploads;
      uploads, scan := PartialUploads(listFails, glances);
      ScanGrows(start, scan.names, glances);
      if uploads.None? {
        return 0, true, scan, None;
      }
      if AllCalm(glances, encounters) {
        CalmScan(start, scan.names, glances);
        StaleAreExpired(start, scan, uploads.value, glances, encounters, retention);
      }
      ghost var scanned := Contents();
      var stats;
      ghost var trace;
      removed, failed, stats, trace := Sweep(uploads.value, encounters);
      KeptInTurn(start, scanned, Contents());
      staleUploads := Some(stats);
      sweep := Some(trace);
    }

    /** Its loop. */
    method Sweep(uploads: seq<PartialUpload>, encounters: string -> Encounter)
      returns (removed: nat, failed: bool, stats: map<string, StaleStats>, ghost sweep: SweepTrace)
      requires Valid() && DistinctIds(uploads)
      modifies `activeAttempts, `data, `infos, `attempts, `receipts, `open
      ensures Valid() && AcceptedKept(old(Contents()), Contents())
      ensures sweep.uploads == uploads && Swept(old(Contents()), Contents(), sweep, encounters, retention)
      ensures Tallies(stats, StillStale(uploads, sweep.outcomes))
      ensures removed == Removals(sweep.outcomes)
      ensures failed == AnyFailed(sweep.outcomes)
      ensures Undisturbed(old(Contents()), uploads, encounters, retention) ==>
        !failed && stats == map[] && SweptFirst(old(Contents()), Contents(), uploads, |uploads|, removed)
    {
      removed, failed, stats := 0, false, map[];
      ghost var start := Contents();
      ghost var shelves: seq<Shelf>, outcomes: seq<Cleanup> := [start], [];
      SweepStarts(start, uploads);
      for i := 0 to |uploads|
        invariant Valid() && AcceptedKept(start, Contents())
        invariant SweptSoFar(start, Contents(), shelves, uploads, outcomes, i, encounters, retention)
        invariant Tallied(uploads, outcomes, i, stats, removed, failed)
        invariant Undisturbed(start, uploads, encounters, retention) ==>
          !failed && stats == map[] && SweptFirst(start, Contents(), uploads, i, removed)
      {
        ghost var s := Contents();
        var c := SweepOne(start, uploads, i, encounters, removed);
        TalliedNext(uploads, outcomes, i, stats, removed, failed, c);
        SweptNext(start, s, Contents(), shelves, uploads, outcomes, i, encounters, retention, c);
        shelves, outcomes := shelves + [Contents()], outcomes + [c];
        failed := failed || c.failed;
        if c.removed {
          removed := removed + 1;
        }
        if c.remainsStale {
          stats := CountIn(stats, uploads[i]);
        }
      }
      assert uploads[..|uploads|] == uploads;
      sweep := SweepTrace(uploads, shelves, outcomes);
    }

    /** One turn of that loop. */
    method SweepOne(ghost start: Shelf, uploads: seq<PartialUpload>, i: nat, encounters: string -> Encounter,
                    ghost before: nat) returns (c: Cleanup)
      requires Valid() && AcceptedKept(start, Contents()) && DistinctIds(uploads) && i < |uploads|
      requires Undisturbed(start, uploads, encounters, retention) ==> SweptFirst(start, Contents(), uploads, i, before)
      modifies `activeAttempts, `data, `infos, `attempts, `receipts, `open
      ensures Valid() && AcceptedKept(start, Contents())
      ensures TurnDone(old(Contents()), Contents(), uploads[i], encounters, retention, c)
      ensures Undisturbed(start, uploads, encounters, retention) ==>
        && !c.failed && !c.remainsStale
        && SweptFirst(start, Contents(), uploads, i + 1, if c.removed then before + 1 else before)
    {
      StaleIdsNext(uploads, i);
      if !uploads[i].stale {
        return SKIPPED;
      }
      ghost var s := Contents();
      var o := uploads[i].id;
      c := CleanupStalePartialUpload(o, encounters(o));
      CleanedUpKeepsAccepted(s, Contents(), o, encounters(o), retention, c);
      KeptInTurn(start, s, Contents());
      if Undisturbed(start, uploads, encounters, retention) {
        CalmCleanup(start, Contents(), uploads, i, encounters(o), retention, c);
      }
    }
  }

  // ---------- The outcomes of a sweep ----------

  /** The scanned uploads, the shelf before and after each turn, and what each turn answered. */
  datatype SweepTrace = SweepTrace(uploads: seq<PartialUpload>, shelves: seq<Shelf>, outcomes: seq<Cleanup>)

  /** One turn of the sweep: a stale upload gets its cleanup, any other nothing. */
  ghost predicate TurnDone(s: Shelf, v: Shelf, u: PartialUpload, encounters: string -> Encounter,
                           retention: int, c: Cleanup)
  {
    if u.stale then CleanedUp(s, v, u.id, encounters(u.id), retention, c) else v == s && c == SKIPPED
  }

  ghost predicate TurnAt(shelves: seq<Shelf>, uploads: seq<PartialUpload>, outcomes: seq<Cleanup>, i: nat,
                         encounters: string -> Encounter, retention: int)
    requires i < |outcomes| <= |uploads| && |outcomes| < |shelves|
  {
    TurnDone(shelves[i], shelves[i + 1], uploads[i], encounters, retention, outcomes[i])
  }

  ghost predicate SweptSoFar(start: Shelf, v: Shelf, shelves: seq<Shelf>, uploads: seq<PartialUpload>, outcomes: seq<Cleanup>,
                             n: nat, encounters: string -> Encounter, retention: int)
  {
    && |outcomes| == n <= |uploads| && |shelves| == n + 1
    && shelves[0] == start && shelves[n] == v
    && forall i: nat {:trigger TurnAt(shelves, uploads, outcomes, i, encounters, retention)} :: i < n ==>
      TurnAt(shelves, uploads, outcomes, i, encounters, retention)
  }

  /** Every scanned upload had its turn, one after the other. */
  ghost predicate Swept(start: Shelf, v: Shelf, sweep: SweepTrace, encounters: string -> Encounter, retention: int) {
    SweptSoFar(start, v, sweep.shelves, sweep.uploads, sweep.outcomes, |sweep.uploads|, encounters, retention)
  }

  /** The uploads whose turn answered that they stay stale, in order. */
  function StillStale(uploads: seq<PartialUpload>, outcomes: seq<Cleanup>): seq<PartialUpload>
    requires |uploads| == |outcomes|
  {
    if uploads == [] then []
    else
      var n := |uploads| - 1;
      StillStale(uploads[..n], outcomes[..n]) + if outcomes[n].remainsStale then [uploads[n]] else []
  }

  function Removals(outcomes: seq<Cleanup>): nat {
    if outcomes == [] then 0
    else Removals(outcomes[..|outcomes| - 1]) + if outcomes[|outcomes| - 1].removed then 1 else 0
  }

  predicate AnyFailed(outcomes: seq<Cleanup>) {
    exists i :: 0 <= i < |outcomes| && outcomes[i].failed
  }

  /** The statistics, the count and the error after i turns. */
  ghost predicate Tallied(uploads: seq<PartialUpload>, outcomes: seq<Cleanup>, i: nat, stats: map<string, StaleStats>,
                          removed: nat, failed: bool)
  {
    && |outcomes| == i <= |uploads|
    && Tallies(stats, StillStale(uploads[..i], outcomes))
    && removed == Removals(outcomes)
    && failed == AnyFailed(outcomes)
  }

  lemma TalliedNext(uploads: seq<PartialUpload>, outcomes: seq<Cleanup>, i: nat, stats: map<string, StaleStats>,
                    removed: nat, failed: bool, c: Cleanup)
    requires Tallied(uploads, outcomes, i, stats, removed, failed) && i < |uploads|
    ensures Tallied(uploads, outcomes + [c], i + 1, if c.remainsStale then CountIn(stats, uploads[i]) else stats,
                    if c.removed then removed + 1 else removed, failed || c.failed)
  {
    var next := outcomes + [c];
    assert next[..i] == outcomes && next[i] == c;
    assert uploads[..i + 1][..i] == uploads[..i];
    if j :| 0 <= j < |outcomes| && outcomes[j].failed {
      assert next[j].failed;
    }
    var left := StillStale(uploads[..i], outcomes);
    if c.remainsStale {
      TalliesNext(stats, left, uploads[i]);
    } else {
      assert left + [] == left;
    }
  }

  lemma SweptNext(start: Shelf, s: Shelf, v: Shelf, shelves: seq<Shelf>, uploads: seq<PartialUpload>, outcomes: seq<Cleanup>,
                  n: nat, encounters: string -> Encounter, retention: int, c: Cleanup)
    requires SweptSoFar(start, s, shelves, uploads, outcomes, n, encounters, retention) && n < |uploads|
    requires TurnDone(s, v, uploads[n], encounters, retention, c)
    ensures SweptSoFar(start, v, shelves + [v], uploads, outcomes + [c], n + 1, encounters, retention)
  {
    forall i: nat | i < n + 1 ensures TurnAt(shelves + [v], uploads, outcomes + [c], i, encounters, retention) {
      if i < n {
        assert TurnAt(shelves, uploads, outcomes, i, encounters, retention);
      }
    }
  }

  ghost predicate ScanSucceeds(s: Shelf, listFails: bool, glances: string -> Glance) {
    && !listFails
    && forall o :: o in s.infos ==>
      && !glances(o).receipt
      && (o !in s.receipts ==> s.infos[o].readable && !glances(o).data && glances(o).stat.None?)
  }

  /** After i turns the stale uploads among the first i are gone, and counted. */
  ghost predicate SweptFirst(start: Shelf, v: Shelf, uploads: seq<PartialUpload>, i: nat, removed: nat) {
    && i <= |uploads|
    && v == Gone(start, StaleIds(uploads, i))
    && removed == |StaleIds(uploads, i)|
  }

  lemma SweepStarts(start: Shelf, uploads: seq<PartialUpload>)
    ensures AcceptedKept(start, start) && SweptFirst(start, start, uploads, 0, 0) && Tallies(map[], [])
  {
    assert Gone(start, StaleIds(uploads, 0)) == start;
  }

  /** The scan looks at one more name, and meets the shelf v. */
  ghost predicate NextLook(before: ScanTrace, scan: ScanTrace, o: string, v: Shelf) {
    o !in before.names && scan == ScanTrace(before.names + [o], before.moments[o := v])
  }

  lemma ScanLooks(s: Shelf, before: ScanTrace, scan: ScanTrace, o: string, v: Shelf, glances: string -> Glance)
    requires IsScan(s, before, glances) && o in s.infos && NextLook(before, scan, o, v)
    requires v == After(ScanShelf(s, before.names, glances), glances(o).before)
    ensures IsScan(s, scan, glances) && v == ScanShelf(s, scan.names, glances)
  {
    var n := |before.names|;
    assert scan.names[..n] == before.names && scan.names[..n + 1] == scan.names;
    forall i: nat | i < |scan.names| ensures MomentAt(s, scan, glances, i) {
      if i < n {
        assert MomentAt(s, before, glances, i);
        assert scan.names[..i + 1] == before.names[..i + 1];
        assert before.names[i] in before.names;
      }
    }
  }

  lemma FoundElsewhere(before: ScanTrace, scan: ScanTrace, o: string, found: seq<PartialUpload>)
    requires o !in before.names && forall x :: x in Ids(found) ==> x in before.names
    ensures forall j :: 0 <= j < |found| ==> found[j].id != o
  {
    forall j | 0 <= j < |found| ensures found[j].id != o {
      assert found[j].id in Ids(found);
    }
  }

  lemma FoundStays(before: ScanTrace, scan: ScanTrace, o: string, v: Shelf, found: seq<PartialUpload>,
                   glances: string -> Glance, retention: int)
    requires Finds(before, found, glances, retention) && NextLook(before, scan, o, v)
    ensures forall j :: 0 <= j < |found| ==> FoundAt(scan, found[j], glances, retention)
    ensures o in v.receipts ==> Finds(scan, found, glances, retention)
  {
    FoundElsewhere(before, scan, o, found);
    forall j | 0 <= j < |found| ensures FoundAt(scan, found[j], glances, retention) {
      assert FoundAt(before, found[j], glances, retention);
    }
  }

  lemma FoundNext(before: ScanTrace, scan: ScanTrace, v: Shelf, found: seq<PartialUpload>, u: PartialUpload,
                  glances: string -> Glance, retention: int)
    requires Finds(before, found, glances, retention) && NextLook(before, scan, u.id, v)
    requires Describes(v, u, retention, glances(u.id).now)
    ensures Finds(scan, found + [u], glances, retention)
  {
    FoundStays(before, scan, u.id, v, found, glances, retention);
    FoundElsewhere(before, scan, u.id, found);
    var next := found + [u];
    forall o ensures o in Ids(next) <==> o in Ids(found) || o == u.id {
      if o in Ids(found) {
        var j :| 0 <= j < |found| && found[j].id == o;
        assert next[j].id == o;
      }
      assert next[|found|].id == u.id;
    }
    assert FoundAt(scan, u, glances, retention);
  }

  lemma LookFails(s: Shelf, o: string, v: Shelf, listFails: bool, glances: string -> Glance, retention: int)
    requires o in s.infos && Grows(s, v) && LookDone(v, o, glances(o), retention, Failed)
    ensures !ScanSucceeds(s, listFails, glances)
  {
  }

  /** The trace and the uploads found after one more look. */
  lemma ScanNext(s: Shelf, before: ScanTrace, scan: ScanTrace, o: string, v: Shelf, found: seq<PartialUpload>,
                 look: Look, glances: string -> Glance, retention: int)
    requires IsScan(s, before, glances) && Finds(before, found, glances, retention)
    requires o in s.infos && NextLook(before, scan, o, v)
    requires v == After(ScanShelf(s, before.names, glances), glances(o).before)
    requires LookDone(v, o, glances(o), retention, look)
    ensures IsScan(s, scan, glances) && v == ScanShelf(s, scan.names, glances) && Grows(s, v)
    ensures look.Seen? ==> Finds(scan, found + [look.upload], glances, retention)
    ensures look.Accepted? ==> Finds(scan, found, glances, retention)
  {
    ScanLooks(s, before, scan, o, v, glances);
    ScanGrows(s, scan.names, glances);
    if look.Seen? {
      FoundNext(before, scan, v, found, look.upload, glances, retention);
    } else {
      FoundStays(before, scan, o, v, found, glances, retention);
    }
  }
}
