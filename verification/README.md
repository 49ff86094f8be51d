# Canner's artifact, package, delivery and purge lifecycle in Dafny

Canner accepts artifacts over resumable uploads, groups them into packages, delivers the packages to
a sink and removes local copies when nothing needs them any more. This project models that lifecycle
as the code performs it and proves what it promises: that no accepted artifact is lost under crashes
between any two steps, that the four tables always agree, that the packaging loop comes to rest, that
a draining round is optimal, that the delivery scheduler is bounded and shuts down, and that a client
with a receipt knows its content is stored.

## How the project is built

- `Schema` holds the tables as a value, with one function per SQL statement or transaction, each with
  its exact WHERE filter. `TablesInvariant` is the inductive invariant over them, with one lemma per
  statement. A package ID is the tuple it is derived from; `PackageIds` proves that the hashed byte
  string determines that tuple, so that equality of IDs is equality of tuples as far as SHA-256 has
  no collision. History that no statement reads: a snapshot's attempt number.
- `Store.DeliveryStore` is the same database as an object that methods update in place. Every method
  is proved equal to its table function, and every query to the row that its ORDER BY puts first.
- `Draining`, `Reservation` and `DrainingRound` treat `reservePackage`: the selection loop, one call,
  and a whole round of calls.
- `Lifecycle` is the machine of the whole system: receiver, cleanup, packaging goroutine, delivery
  goroutines, clock, process crashes and a power failure under the package storage. Where it is
  generous (any claimable delivery may be claimed, any unaccepted upload may be judged stale) its
  theorems hold of more than the code does. `LifecycleInvariant` proves that all of its actions keep
  one invariant, `LifecycleTheorems`, `RetrySpacing` and `BuildHistory` draw the conclusions over runs.
  `Punctuality` says when rows become due, and `Progress` what can always be done next.
- `WorkMeasure` and `WorkLoop` are the packaging loop over the store, `Scheduler`,
  `SchedulerInvariant` and `SchedulerTheorems` the delivery scheduler with its bounded channel. The
  scheduler runs on top of `Lifecycle`, and each of its row updates is one Lifecycle step.
  `DeliveryOutcome` ties what rows say to what the upload goroutines reported.
- `UploadCleanup`, `Acceptance`, `Discovery` and `ResumeClient` are the receiver's sweep, acceptance,
  reconciliation and the client; `Dashboard` the backlog figures; `PackageNames`, `Clock`,
  `Ordering`, `Sequences` and `Wrappers` what the others share.

Instants are integers of nanoseconds and never go back; columns hold whole Unix seconds. SHA-256 and
BLAKE3 are taken to be injective. `mergewarc` concatenates its inputs or fails. Admission (the
identifier and checksum patterns) keeps NUL out of every hashed field, which the Lifecycle machine
proves of its own rows; `PackageIds.EncodeAmbiguousWithNul` shows that the encoding needs it.
Configuration satisfies `trigger >= target >= 1`. One `deliver` process runs at a time. Where
`design.md` describes serial delivery, the model follows the code, which delivers concurrently.

## Where the code falls short

- `Dashboard.PercentAgreesIff`: the percentage shown and the bytes to go disagree exactly when the
  trigger is reached and (pending * 100) mod 2^64 is not between a hundred triggers and 2^63 - 1;
  `Dashboard.PercentOverflows` is such an input.
- `ResumeClient.Resume`: with nothing wrong but the network, and others sending nothing but the same
  content, resuming ends with the receipt if and only if the upload is completable
  (`ResumeClient.Completable`) and the first round that delivers the receipt, or that finds all bytes
  stored and needs its GET, delivers it or has the GET answered (`ResumeClient.EndingOf`). So it fails in
  three reachable ways: an upload whose acceptance failed once on its completing PATCH, which no resume
  ever completes (`ResumeClient.FailedAcceptanceIsFinal`); an accepted upload whose answer was lost and
  whose source the packager purged before the client asked again, for which the client reports an error
  although the matching receipt is published (`ResumeClient.PurgedBeforeAsked`); and an accepted upload
  that is still there when the GET of its receipt (client/client.go:293 and 329) is lost or put off, which
  the client, unlike HEAD and PATCH, does not send again (`ResumeClient.ReceiptNotAskedAgain`).
- `WorkLoop.OnlyMalformedAreBlamedIff`: the scan for invalid members blames every error that is
  neither of the context nor says missing or denied, so a sound artifact behind another I/O error is
  taken out of packaging for good (`LifecycleTheorems.SealedIsForever`: packaging errors never go
  away), where design.md:174 has such failures back off. It happens exactly if some member meets such
  an error and no member's error ends the scan; `WorkLoop.TransientErrorIsBlamed` is such an input.

## Model

| member | source | states |
|---|---|---|
| `Clock.RetryDelay` | delivery.go:453-462 | The doubling loop computes min(2^(attempt-1), 60) minutes, and one minute for attempt 0; always between a minute and an hour |
| `Clock.CumulativeClosedForm` | delivery.go:453-462 | The backoffs of n failures add up to 2^n - 1 minutes up to six failures (63), then one hour more each |
| `Clock.DeadlineNeverEarly` | delivery.go:445-451 | A deadline rounded up to seconds and compared with a clock rounded down is never met early and at most one second late |
| `Clock.UnixCeilIsFirstSecond` | delivery.go:445-451 | Rounding up gives the first whole second that does not lie before the instant |
| `Clock.BackoffIsRetrySecond` | delivery.go:453-462 | A retry after attempt n is due at the second of the failure plus 2^(n-1) minutes up to the sixth attempt and 60 minutes from the seventh on |
| `PackageIds.DecodeOfEncode` | package.go:252-268 | A decoder recovers packager, project and the ordered member list from the hashed byte string, for NUL-free fields |
| `PackageIds.EncodeInjective` | package.go:252-268 | Different packagers, projects or ordered member lists never give the same bytes to hash |
| `PackageIds.EncodeOfOne` | package.go:252-268 | The bytes hashed for one member: version, packager, project, object ID, checksum and size in this order, each ended by a NUL |
| `PackageIds.EncodeAmbiguousWithNul` | package.go:252-268 | The NUL condition is needed: one member whose object ID contains NULs encodes like two members |
| `PackageNames.PayloadIsNeverAManifest` | package.go:270-279 | No payload name ends in `.manifest.jsonl`, whatever the artifact was called |
| `PackageNames.ExtIsSuffix` | package.go:272 | The extension is an ending of the path, and empty if and only if the last path element has no dot |
| `PackageNames.PayloadEnding` | package.go:270-279 | A payload is named project, dash, 24 digits and `.warc.zst`, or for identity the ending of its artifact, with any spelling of `.warc.zst` as one ending |
| `PackageNames.NameDeterminesShortId` | package.go:270-279 | Within a project, equal payload names mean equal 24-digit ID prefixes |
| `PackageNames.SafeFilenameHolds` | delivery.go:524-529 | The stored file name has 1 to 255 characters, no backslash, no separator except the bare root, and is stable under a second pass |
| `PackageNames.PlainNamesAreKept` | delivery.go:524-529 | A name of at most 255 characters without separators, or the bare root, is kept if it is not a dot name and has no backslash; every other one gives way to the object ID |
| `PackageNames.ResolveFiles` | ia_sink.go:25-39 | The loop over the plan's files resolves every entry to its directory, or fails exactly when some remote name is invalid or some source is not a bare file name |
| `PackageNames.PlanResolvesToPublishedFiles` | package.go:305 | The file map that a package's plan stores resolves to the payload under the remote name and the manifest beside it, where materialization published them |
| `PackageNames.ResolvePackagePlan` | ia_sink.go:25-39 | Resolving that map gives exactly those two paths, or fails exactly if a remote name is invalid |
| `Ordering.SelectFirst` | package.go:123-124 | ORDER BY ... LIMIT 1: the chosen row ranks first among those selected |
| `Ordering.TextLeIsLexicographic` | package.go:140 | Text columns compare lexicographically: a prefix comes first, otherwise the smaller character where they first differ |
| `Ordering.ListingHolds` | package.go:140 | ORDER BY without limit lists every selected row once, in rank order |
| `Draining.SelectMembers` | package.go:182-191 | The selection loop returns the length and bytes of the greedy prefix |
| `Draining.GreedyIsLongest` | package.go:182-191 | That prefix is the longest admissible one: a single artifact of any size, or at most the target |
| `Draining.GreedyCutOptimal` | package.go:182-191 | No cut of the backlog into consecutive admissible blocks has fewer blocks than the greedy one |
| `Draining.NeighboursExceedTarget` | package.go:182-191 | Any two neighbouring greedy packages hold more than one target together |
| `Draining.RoundIsGreedy` | package.go:171-242 | The round's decisions with their draining flag, plus the flush of the tail, are the greedy cut; the tail is below one target |
| `Draining.RoundOptimal` | package.go:171-242 | A triggered round with one flush uses the fewest packages of any admissible cut, and is one |
| `Reservation.PickedFresh` | package.go:196-223 | The selection derives an ID that no package row has, and no key of the schema stands in its way: the `inserted == 0` exit is unreachable |
| `Reservation.CallReserves` | package.go:132-250 | What a call does once it decides to reserve: it fails only on an unresolvable plan or a failing statement, and leaves no trace then |
| `Reservation.ReservePackageKeeps` | package.go:132-250 | Every call keeps the table invariant whatever its outcome; a call that reserves nothing changes only draining flags |
| `Reservation.ReservedPackage` | package.go:196-250 | A successful call inserted exactly one fresh package over the chosen prefix of the ordered backlog, and one delivery under the plan resolved for it; both rows are untried and due at any second, and no other row of the two tables changes |
| `Reservation.TotalIsBacklog` | package.go:140-154 | The total the scan adds up is the size of the project's unreserved backlog |
| `Reservation.BacklogAfterReserve` | package.go:242 | After a reservation the backlog is the total minus the selected bytes |
| `Reservation.FlagAfterReserve` | package.go:242-245 | The flag is persisted if and only if the packager merges, a round is on or this call reaches the trigger, and a target's worth of backlog is left |
| `Reservation.UnreservedFlags` | package.go:158-181 | A call that reserves nothing changes no row but its own project's flag, which it never sets, and fails only on a plan or a statement that fails |
| `Reservation.ReservePackageKeepsDraining` | package.go:136-245 | Every call keeps: a persisted draining flag means a backlog of at least one target |
| `Reservation.DrainingFormsPackages` | package.go:171-245 | During a round every call forms a package, and clears the flag exactly when less than one target remains |
| `Reservation.WhenMergeReserves` | package.go:172-181 | A mergewarc call reserves if and only if the trigger is reached, a round is on, or the oldest candidate is old enough |
| `Reservation.ArrivalCommutes` | package.go:140-250 | An artifact indexed between a call's scan and its transaction leaves the tables as if it had arrived after the call, so the call may be taken as one step |
| `DrainingRound.BacklogShifts` | package.go:140-241 | After a reservation the ordered backlog is exactly what stood behind the selected prefix |
| `DrainingRound.CallsTakeGreedyBlocks` | package.go:132-250 | Calls at any instants, whether the trigger, a round or the age makes them reserve, form exactly the first blocks of the greedy cut, over consecutive stretches of the backlog |
| `DrainingRound.RoundGoesOn` | package.go:173-245 | While the trigger is reached or a round is on every call reserves, until less than one target is left |
| `DrainingRound.CallsEndRound` | package.go:173-245 | As many calls as there are candidates leave less than one target of a triggered backlog |
| `DrainingRound.FlushEmpties` | package.go:172-191 | One call triggered by age takes a whole tail below the target |
| `DrainingRound.EmptiedIsOptimal` | package.go:182-191 | Calls that leave no backlog, at whatever instants, put it in order into the fewest admissible packages |
| `DrainingRound.DrainingRoundIsOptimal` | package.go:132-250 | A triggered backlog, drained by as many calls as it has candidates and one more once the rest has aged, ends up in the fewest admissible packages, at whatever instants the calls came |
| `DrainingRound.AnyRoundIsOptimal` | package.go:132-250 | The same for a project whose row the first of these calls inserts |
| `DrainingRound.FirstCallInserts` | package.go:133-135 | Calls on any project are the calls on the tables with its row inserted |
| `TablesInvariant.MembershipAgrees` | package.go:225-241 | A member row (p, o) exists if and only if `artifacts[o].package_id` is p |
| `TablesInvariant.OrdinalsUnique` | delivery.go:95-104 | Two member rows of one package never share an ordinal |
| `TablesInvariant.ErrorsLieInBlockedPackages` | package.go:367-394 | An artifact has a packaging error if and only if its package is blocked |
| `TablesInvariant.ReservationNeverCollides` | package.go:196-223 | Unreserved candidates never re-derive an existing package: building and sealed packages own all original members, blocked ones keep an errored one |
| `TablesInvariant.UnblockedMembers` | package.go:480-482 | A building or sealed package's member rows are exactly its original members, as many as `member_count` |
| `TablesInvariant.ReserveKeeps` | package.go:208-250 | The reservation transaction keeps the invariant of all four tables |
| `TablesInvariant.ReserveAddsFreshRows` | package.go:208-226 | The transaction adds a building package with no attempt, no error and due at second 0, and a pending delivery with no attempt, due at second 0, under the given plan |
| `TablesInvariant.IsolateKeeps` | package.go:367-394 | So does isolation |
| `TablesInvariant.IsolateReturnsGoodMembers` | package.go:372-394 | Isolation makes every good member a candidate again without a member row, and keeps exactly the bad ones with their errors |
| `TablesInvariant.MarkDeliveredKeeps` | package.go:748-762 | So does recording a delivery, with both purge columns |
| `TablesInvariant.MarkPurgeRetryKeeps` | package.go:868-871 | A purge retry keeps `next_purge_attempt_at >= purge_after` when it lies after the deadline |
| `TablesInvariant.RecoverKeeps` | package.go:118-121 | So does the recovery of interrupted deliveries |
| `Store.DeliveryStore.AddArtifact` | package.go:101-104 | INSERT that adds exactly the given row, or leaves the one that is there; no other row changes |
| `Store.DeliveryStore.ListCandidates` | package.go:140-157 | The scan returns the candidates by acceptance time and then object ID, their sizes and the backlog's total |
| `Store.DeliveryStore.Select` | package.go:165-192 | Identity takes the first candidate; mergewarc waits or takes the greedy prefix, with the flag to persist |
| `Store.DeliveryStore.InsertMemberRows` | package.go:227-241 | The member loop inserts all members at their offsets, or stops on a fault or a taken key |
| `Store.DeliveryStore.Commit` | package.go:208-250 | The transaction inserts everything or nothing, fails only through an injected fault, and leaves fresh package and delivery rows, due at once |
| `Store.DeliveryStore.ReservePackage` | package.go:132-250 | The method equals the call as a function of the old tables and keeps the invariant; a statement that fails before the transaction leaves at most the project's row behind |
| `Store.DeliveryStore.NextBuildingPackage` | package.go:123-130 | Takes a due building package of least creation time, counts one more attempt and clears the error, and changes no other column |
| `Store.DeliveryStore.PackageMembers` | package.go:337-352 | The member rows of a package in ordinal order |
| `Store.DeliveryStore.SealPackage` | package.go:354-357 | Succeeds exactly on a building package and seals it with each value in its own column: size, payload checksum, manifest checksum and second |
| `Store.DeliveryStore.MarkPackageBuildRetry` | package.go:359-365 | Postpones exactly a building package to the given second, with the first 4096 characters of its error |
| `Store.DeliveryStore.IsolateInvalidMembers` | package.go:367-394 | The four statements and the loop over the errors equal one isolation; the package is blocked with the count of the bad members and the first 4096 characters of each error; a fault leaves no trace |
| `Store.DeliveryStore.NextSourceToPurge` | package.go:694-702 | A due unpurged source of a sealed package that is first by due second, then creation of its package, then acceptance, or none is due |
| `Store.DeliveryStore.MarkSourcePurged` | package.go:704-707 | Succeeds exactly on an unpurged source and records the second |
| `Store.DeliveryStore.MarkSourcePurgeRetry` | package.go:709-715 | Postpones exactly an unpurged source to the given second, with the first 4096 characters of its error |
| `Store.DeliveryStore.RecoverInterruptedDeliveries` | package.go:118-121 | Every delivering row goes to retry_wait, due now, with its attempts, its plan and the fixed message; no other row changes |
| `Store.DeliveryStore.ClaimPackageDelivery` | package.go:739-746 | Claims a due delivery of a sealed package, any pending one before a retry and older packages first within each, counts one more attempt and clears the progress |
| `Store.DeliveryStore.MarkPackageDelivered` | package.go:748-762 | Records delivery of exactly a delivering row with its identifier and second, and sets both purge columns to the later of their value and the given deadline |
| `Store.DeliveryStore.MarkPackageRetry` | package.go:764-770 | Sends exactly a delivering row to retry_wait until the given second, with the first 4096 characters of its error, its plan and its attempts |
| `Store.DeliveryStore.MarkPackageDeliveryProgress` | package.go:772-779 | Stores a snapshot on exactly a delivering row |
| `Store.DeliveryStore.NextPackagePurge` | package.go:854-861 | A due purge of least due second whose deliveries are all delivered, or none is due |
| `Store.DeliveryStore.MarkPackagePurged` | package.go:863-866 | Succeeds exactly on a sealed, unpurged package and records the second |
| `Store.DeliveryStore.MarkPackagePurgeRetry` | package.go:868-871 | Postpones exactly a sealed, unpurged package to the given second with its whole error, and leaves its deadline alone |
| `Evolution.MarkDeliveredEvolves` | package.go:748-762 | Recording a delivery never lowers a purge deadline and never touches finished deliveries |
| `Evolution.IsolateEvolves` | package.go:367-394 | Isolation never touches sealed packages, their members or any delivery plan |
| `LifecycleInvariant.StepKeeps` | package.go:396-898 | Each of the machine's actions keeps the invariant over tables, files, packer, deadlines and flags |
| `LifecycleInvariant.RunKeeps` | delivery.go:244-264 | The invariant holds in every state of every run from the empty installation |
| `LifecycleInvariant.OriginalSlice` | package.go:227-241 | Slicing the concatenated package at a member's offset and size gives back the accepted artifact |
| `LifecycleInvariant.JoinedIsOriginal` | package.go:505-513 | What merging reads from the uploads of a building package is the accepted bytes of its original members |
| `LifecycleInvariant.FinishKeeps` | package.go:822-825 | Finishing a delivery keeps every delivery's deadline within its package's purge deadline |
| `LifecycleTheorems.NoAcceptedArtifactIsLost` | delivery.go:423-443 | In every reachable state each receipted object's bytes are in its upload, or at its offset in a sealed package's synced payload, or delivered to every sink |
| `LifecycleTheorems.TablesAlwaysAgree` | package.go:132-394 | The table invariant, and flag implies backlog for every configured project, in every reachable state |
| `LifecycleTheorems.PayloadRoundTrips` | package.go:227-241 | Members tile the sealed payload without gap or overlap, each slice is the accepted artifact, and the size column is the payload's length |
| `LifecycleTheorems.LoadedMembersAreOriginal` | package.go:476-482 | The member rows that materialization loads are the original members in order, so that its count check never fails |
| `LifecycleTheorems.RetentionIsNeverShortened` | package.go:854-898 | Whenever a package file is unlinked, every sink was delivered and its own retention is over, through roundings, the maximum over sinks and retries |
| `LifecycleTheorems.RemovalsAreSafe` | upload_cleanup.go:246-290 | Cleanup removes files of unreceipted objects alone; source purge only what a sealed payload holds or every sink got |
| `LifecycleTheorems.ReconciliationIsAlwaysPossible` | delivery.go:464-522 | A receipted object without a row still has both files, and the scan would write exactly the row that indexing would have written |
| `LifecycleTheorems.SealedIsForever` | package.go:354-357 | Between any two states of a run, receipts, artifact rows' content columns, packaging errors, sealed packages' member rows, sizes and checksums, all plans and delivered rows stay the same |
| `LifecycleTheorems.StepAdvances` | package.go:101-871 | The same for one step |
| `RetrySpacing.AttemptsCountClaims` | package.go:739-746 | The attempts column counts the claims of the delivery in the whole run |
| `RetrySpacing.ClaimsAreSpaced` | package.go:827-828 | Two claims of one delivery without a restart between them lie at least the sum of the backoffs between them apart, in whole seconds |
| `RetrySpacing.FirstToNextClaim` | package.go:827-828 | From the first claim: 63 minutes after six failures, then 60 minutes each |
| `BuildHistory.PackagesStayWithinTarget` | package.go:165-192 | Under one configuration every package in every reachable state is a single artifact, or the merge of no more bytes than its project's target |
| `BuildHistory.BuildMinutesClosedForm` | package.go:429 | The summed backoffs of builds are one minute, for the attempt of the reservation itself, more than those of deliveries |
| `BuildHistory.BuildAttemptsAreSpaced` | package.go:429-430 | Without a crash of the deliver process between them, the beginning of an attempt to build a package (its reservation or a claim) and a later claim lie at least the backoffs of all attempts between them apart, in whole seconds |
| `DeliveryOutcome.EndIsRecorded` | package.go:822-828 | In the Lifecycle machine the end of a delivery without error leaves its row delivered under its plan's identifier at that second, and one with an error leaves it waiting with that error until 2^(attempt-1) minutes, at most 60, have passed |
| `DeliveryOutcome.DoneIsRecorded` | package.go:812-829 | The main loop records exactly what the goroutine reported, for the row it was started for; while stopping or when the statement fails it records nothing |
| `DeliveryOutcome.UndecodableIsRecorded` | delivery.go:333-339 | A claimed row whose plan does not decode waits like one whose upload failed |
| `DeliveryOutcome.SnapshotIsQueued` | package.go:800-806 | A snapshot is queued behind all earlier events exactly if the channel has room, and dropped otherwise |
| `DeliveryOutcome.SnapshotIsRecorded` | package.go:812-818 | Taken outside the shutdown, a snapshot becomes the progress of its row, whose state stays, unless the statement fails |
| `DeliveryOutcome.DeliveredWasFinished` | package.go:748-762 | A delivered row of the Lifecycle machine was finished by a step before |
| `DeliveryOutcome.DeliveredMeansSucceeded` | package.go:781-829 | A row that is delivered was so when the process started, or the main loop took, for that row, the end of a goroutine whose upload had ended without an error |
| `Punctuality.DeliveryIsDue` | package.go:224 | Whenever a package is sealed, its delivery is delivered, being tried, claimable at once if it was never tried, or claimable within an hour |
| `Punctuality.BuildIsDue` | package.go:208 | A package under construction is due at once if its build never failed, and otherwise within an hour |
| `Punctuality.SourceIsDue` | package.go:694-715 | The source of a sealed package's member is due for removal at once if removing it never failed, and otherwise within 61 seconds |
| `Punctuality.ReservationIsFresh` | package.go:208-250 | A reservation in a run adds fresh rows with the plan that was resolved for it, and its package is due for a build at once |
| `Punctuality.FailureIsRecorded` | package.go:429-430 | A failed build is due again when the backoff of its attempts is over; a source or package that could not be removed, in the first whole second a minute later |
| `Punctuality.PurgeDeadlineIsExact` | package.go:758 | In every reachable state `purge_after` is NULL without a delivered sink, and otherwise the largest of the seconds at which a delivered sink's retention ends, attained by one; `next_purge_attempt_at` equals it until an attempt fails |
| `Punctuality.PurgeIsDueExactly` | package.go:854-861 | A sealed package that no attempt failed to purge is due at a second if and only if all its sinks are delivered and the retention of each is over by then |
| `Progress.UploadCanBeAccepted` | server.go:120-236 | From every state of the invariant a fresh admissible upload can be created, filled, accepted and indexed, with its own checksum, size and second |
| `Progress.DueBuildCanStart` | package.go:123-130 | A due package can be claimed for its build while the packaging goroutine is at rest, which counts one attempt |
| `Progress.PackageCanBeBuilt` | package.go:475-562 | A package being materialized can be merged, published and sealed: its payload is the accepted bytes of its members in order, both files are durable, and each checksum is in its column |
| `Progress.DeliveryCanFinish` | package.go:739-829 | A claimable delivery can be tried and finished, which counts one attempt and sets the purge columns |
| `Progress.SourceCanGo` | delivery.go:423-443 | A due source can be removed with both its files, and no other upload is touched |
| `Progress.PackageCanGo` | package.go:873-898 | A package that is due for purge can be removed with both its files, and no other package's files are touched |
| `Progress.AbandonedCanGo` | upload_cleanup.go:246-290 | An upload that was not accepted can be cleaned up, and no other upload is touched |
| `Progress.WorkMayFail` | package.go:396-436 | At every point of a build or a removal the machine allows it to fail |
| `Progress.ProcessMayFail` | delivery.go:244-264 | At every point a running delivery may fail and either process may crash and forget what it was doing |
| `Progress.PowerLossTakesUnsynced` | package.go:540-551 | A power failure takes exactly the package files that no directory sync made durable: a payload that was only renamed into place is lost, with its package still under construction |
| `Progress.ArtifactCanGoThrough` | delivery.go:244-264 | Under any configuration an artifact of a configured project can go all the way from an empty installation: accepted, packaged, delivered, its source removed and its package removed |
| `WorkMeasure.IsolationBlames` | package.go:376-382 | Isolation lowers the number of artifacts without a packaging error |
| `WorkMeasure.ReservationTakes` | package.go:227-241 | A reservation lowers the number of unreserved candidates and blames none |
| `WorkMeasure.NothingSettles` | package.go:158-181 | A call that finds nothing leaves its project with no candidates and no flag, or with a backlog that must wait |
| `WorkMeasure.SettledCallsDoNothing` | package.go:158-181 | On a settled project a call changes nothing |
| `WorkLoop.BlameIsExact` | package.go:446-460 | The scan ends at the first member whose error is of the context or says missing or denied; without such a member exactly those with any other error are blamed, each with its own message |
| `WorkLoop.OnlyMalformedAreBlamedIff` | package.go:446-460 | Only malformed members are blamed if and only if no member meets an I/O error of another class, or some member's error ends the scan |
| `WorkLoop.TransientErrorIsBlamed` | package.go:449-458 | A sound artifact behind an input/output error is blamed (concrete input) |
| `WorkLoop.DeliveryWorker.FindInvalidPackageMembers` | package.go:438-461 | In ordinal order, up to the first member that ends the scan: missing or denied voids it, a context error is an error, otherwise every member with another error is blamed; identity packages never are |
| `WorkLoop.DeliveryWorker.MaterializePackage` | package.go:475-562 | An error leaves the row alone; success seals it with the size of its original members, the one member row's checksum for identity or the built payload's for a merge, and the manifest's own checksum; the count check never fails |
| `WorkLoop.AfterBuildRecords` | package.go:418-435 | What the rows say of a build, column by column: sealed with its checksums, or the blamed members with their errors and the others free again, or due when 2^(attempt-1) minutes, at most 60, are over, with the error |
| `WorkLoop.DeliveryWorker.BuildPackage` | package.go:418-435 | Seals, isolates the blamed members, or postpones by the backoff of its attempts, as the columns then say, and then is no longer due or fewer artifacts are without an error; it fails if and only if marking fails, or the scan cannot load its rows or meets the end of the context, and then changes nothing |
| `WorkLoop.DeliveryWorker.ReserveSomewhere` | package.go:402-414 | The first project in name order with something to reserve reserves; otherwise all projects are settled; it fails only on a failing statement or an unresolvable plan |
| `WorkLoop.DeliveryWorker.RunPackageBuildCycle` | package.go:396-436 | Builds the first due package, or else the first reservation in name order; that lowers the measure, and a cycle that did not work leaves no due build and all projects settled; the ways to fail are listed with what each leaves behind |
| `WorkLoop.DeliveryWorker.RunPackagedSourcePurgeCycle` | package.go:717-729 | Marks the first due source as purged now, or postpones it to the first whole second a minute away with its error, which lowers the measure; a cycle that did not work means that none is due; it fails if and only if a statement fails or the removal of a due source is canceled |
| `WorkLoop.DeliveryWorker.RunPackagePurgeCycle` | package.go:873-898 | Marks the first due package as purged now, or postpones it to the first whole second a minute away with its error, which lowers the measure; a cycle that did not work means that none is due; it fails if and only if a statement fails |
| `WorkLoop.DeliveryWorker.RunTurn` | delivery.go:369-392 | One pass through the three cycles: it worked and lowered the measure, or everything is idle; nothing but the listed troubles makes it fail |
| `WorkLoop.DeliveryWorker.RunPackagingScheduler` | delivery.go:369-402 | With the clock frozen and no other writer the loop terminates for all outcomes; every turn is one build or purge on the tables before it; without failing statements, canceled removals, a context that ends and unresolvable plans it never fails and ends idle |
| `SchedulerInvariant.MoveIsLifecycleStep` | package.go:812-829 | Every row update of the scheduler is one enabled step of the Lifecycle machine, although it uses the values its goroutine was started with |
| `SchedulerInvariant.SchedulerRunKeeps` | delivery.go:266-367 | The scheduler's invariant in every state of every interleaving from a recovered start |
| `SchedulerTheorems.DeliveringMatchesActive` | delivery.go:291-345 | At every loop head the delivering rows are exactly those of the goroutines whose `done` is unprocessed; their number is `active`, within the limit |
| `SchedulerTheorems.OneAttemptInFlight` | delivery.go:325-345 | Never two goroutines for one package and sink |
| `SchedulerTheorems.ProgressIsCurrent` | package.go:793-829 | A recorded snapshot was sent by the attempt that the row counts now |
| `SchedulerTheorems.EventsFindTheirRow` | package.go:812-829 | Outside the shutdown each event finds its row delivering on its own attempt; only a failing statement stops the loop there |
| `SchedulerTheorems.DoneIsTakenOnce` | delivery.go:273-295 | No goroutine's `done` is taken twice |
| `SchedulerTheorems.StopsExactly` | delivery.go:297-365 | The loop begins to stop exactly when it notices a cancellation, the packaging goroutine ends, reconciliation or a claim fails, or a statement that should record an outcome fails |
| `SchedulerTheorems.TurnGoesOn` | delivery.go:296-366 | Otherwise a turn drains the channel until it is empty, reconciles, claims until all slots are taken or nothing is claimable, and waits |
| `SchedulerTheorems.LoopNeverBlocks` | delivery.go:296-366 | In every phase before it stops the main loop can move |
| `SchedulerTheorems.CancelledClaimsNothing` | delivery.go:297-299 | Once cancelled at the head of the loop it claims nothing any more until it stops |
| `SchedulerTheorems.StopNeverBlocks` | delivery.go:273-289 | While stopping, some move of the shutdown or of a goroutine is always possible |
| `SchedulerTheorems.StopMoveShrinks` | delivery.go:273-289 | and each of them lowers what is left to wait for |
| `SchedulerTheorems.StopEnds` | delivery.go:273-289 | so that a run has boundedly many of them after the stop began, and never leaves the stop except by returning |
| `SchedulerTheorems.StoppedHasTakenAll` | delivery.go:273-289 | When the loop has returned, the `done` of every goroutine ever started was taken and the channel is empty |
| `SchedulerTheorems.RestartRecovers` | delivery.go:254-258 | After the next start interrupted rows are due again, all other rows keep every column, and the scheduler starts in its initial state |
| `UploadCleanup.Receiver.SetUploadAttemptActive` | upload_cleanup.go:65-72 | The count moves by the delta, and leaves the map when it falls to zero |
| `UploadCleanup.Receiver.UploadAttemptActive` | upload_cleanup.go:74-78 | True exactly while some PATCH on the upload is being served |
| `UploadCleanup.Receiver.BeginPatch` | upload_cleanup.go:46 | One more request is being served |
| `UploadCleanup.Receiver.EndPatch` | upload_cleanup.go:46-53 | The end of a request is recorded as its receipt and metadata demand, unless that fails; then the request is forgotten |
| `UploadCleanup.Receiver.LastAttemptEnd` | upload_cleanup.go:135-153 | The latest modification time of the three files, missing if none is after the zero time, failed on a stat error |
| `UploadCleanup.Receiver.PartialUploadStale` | upload_cleanup.go:320-332 | True only of expired uploads and false only of others |
| `UploadCleanup.ExpiredMeansQuiet` | upload_cleanup.go:320-332 | An expired upload is served by no request, has no receipt, and neither the recorded end of an attempt nor a write to its data or metadata lies within the retention |
| `UploadCleanup.QuietMeansExpired` | upload_cleanup.go:320-332 | and an unaccepted upload with metadata that is quiet in this sense has expired |
| `UploadCleanup.Receiver.CleanupStalePartialUpload` | upload_cleanup.go:246-290 | Files go only of an upload that is inactive, unaccepted and past its retention once the lock is held; nothing else changes, and the outcome tells which uploads stay stale |
| `UploadCleanup.Receiver.RemoveFiles` | upload_cleanup.go:281-285 | Removes data, .info and .attempt in order up to the first failure |
| `UploadCleanup.Receiver.PartialUploads` | upload_cleanup.go:292-318 | With requests that begin, append, end or are accepted between its looks, and the clock read again for each, it finds every upload with metadata at the listing that is unaccepted at its look, once, with its staleness then; fails only if listing, a receipt's stat or a metadata, data or time lookup fails |
| `UploadCleanup.Receiver.CleanupStalePartialUploads` | upload_cleanup.go:214-244 | Every upload found stale has its cleanup in turn, decided by the files and the clock under its own lock; the statistics tally exactly those whose cleanup answered that they stay stale, the count those removed; no upload accepted by the end loses a file and no accepted data changes; without faults and interference exactly the uploads expired at their scan go |
| `UploadCleanup.Receiver.Sweep` | upload_cleanup.go:219-243 | The same for its loop over any scanned uploads, against the trace of shelves and outcomes |
| `UploadCleanup.TallyNext` | upload_cleanup.go:237-241 | Counting in one more upload adds one, its received bytes and its size to its own project alone |
| `Discovery.DiscoverAccepted` | delivery.go:464-522 | Only rebuilds missing rows from their own receipt and metadata, changes no existing row, and without failures covers every recoverable object; a missing directory is no failure, one that cannot be listed is |
| `Discovery.ScanIndexesExactlyTheReceipted` | delivery.go:464-522 | In every state that satisfies the Lifecycle invariant, a scan without failures leaves indexed = receipted with the rows of acceptance |
| `Discovery.LookIsAStep` | delivery.go:490-518 | Between hasArtifact, GetUpload and addArtifact anything may happen: the insertion is still exactly the indexing of acceptance, or nothing if the row came to be meanwhile |
| `Discovery.ScanWithinARun` | delivery.go:464-522 | Within a run, with any steps of the system between listing, reading, hasArtifact, GetUpload and addArtifact: every object receipted at the listing is indexed when the scan ends, with the row of its acceptance, because metadata that can no longer be loaded was purged after indexing; rows that were there keep their content |
| `Discovery.UnindexedIsRecoverable` | delivery.go:495-518 | Every receipted, unindexed object can be rebuilt as the row acceptance would have written, and nothing else can |
| `Acceptance.Server.Create` | server.go:120-141 | Creates exactly the admissible uploads, empty, and drops over-long file names |
| `Acceptance.Server.Accept` | server.go:171-236 | An existing receipt comes back as it is; a new one is published if and only if no step before its publication fails and the stored bytes have the declared length and checksum; receipts and indexed rows are never overwritten |
| `Acceptance.Server.Patch` | server.go:143-160 | Bytes are appended only at the stored offset of an incomplete upload; each answer has its exact condition, in particular a conflict if and only if the upload is there with another number of bytes; a receipt appears if and only if the PATCH completes the upload with the declared checksum and nothing fails before its publication |
| `ResumeClient.ProgressReader.Read` | client/client.go:445-452 | Each read reports the bytes read so far if it brought any |
| `ResumeClient.ReadBody` | client/client.go:304-316 | The body is the content from the offset on; its snapshots climb within 0 to size |
| `ResumeClient.InspectOffset` | client/client.go:377-400 | A returned offset is the number of stored bytes and within the session's size; lost or put-off requests are retried |
| `ResumeClient.Try` | client/client.go:274-353 | One turn: an honest receipt and climbing snapshots; a lost or refused HEAD is retried or reported by its status; if somebody else appended between HEAD and PATCH, the turn waits and changes nothing; under mere network trouble and others that send the same content, the upload stays as completable as it was, and the fates of the round determine whether the turn ends with the receipt, ends without it because its GET is not answered, or waits with so many bytes stored |
| `ResumeClient.CreateUpload` | client/client.go:208-247 | There is a session if and only if the content is admissible and the first request that is not put off comes through; its upload is completable |
| `ResumeClient.Resume` | client/client.go:260-354 | A receipt without error means that the stored bytes at acceptance are the client's content, whatever happened in between; under mere network trouble, with others appending nothing but the same content at any point, there is one if and only if the upload was completable (both files there with the session's size and checksum, a prefix of the content stored, and complete only with a receipt) and the first round that delivers the receipt or needs its GET delivers it or has that GET answered; without any such round the context ends first |
| `ResumeClient.Upload` | client/client.go:194-200 | The same for creating and completing an upload in one call: admissible content whose creation comes through ends with its receipt under exactly that condition on the rounds, from no byte stored |
| `ResumeClient.ClearRoundsEnd` | client/client.go:274-353 | A round in which HEAD and PATCH come through with nobody between them and the whole body is read bounds the rounds, whatever others append in the rounds before: they end, and with the receipt if every GET is answered |
| `ResumeClient.FailedAcceptanceIsFinal` | client/client.go:292-298 | A run in which acceptance fails once on the completing PATCH: every later resume ends in an error, whatever others do |
| `ResumeClient.PurgedBeforeAsked` | client/client.go:275-290 | A run in which the accepted upload's answer is lost and its source is purged: the resume ends in an error although the matching receipt is published |
| `ResumeClient.ReceiptNotAskedAgain` | client/client.go:292-297 | A run in which the answer of an accepted upload that is still there is lost, and then the GET of its receipt is lost or put off: the resume ends in an error at once, although the matching receipt is published |
| `Dashboard.DashboardProject` | dashboard.go:137-161 | The figures are those of the ordered backlog: its count, bytes, oldest row and the derived trigger and wait values |
| `Dashboard.SecondsMatchAge` | dashboard.go:156-160 | The wait shown is the remaining time rounded up; it is zero if and only if the age trigger holds |
| `Dashboard.PercentAgreesIff` | dashboard.go:152-155 | "100 percent" and "0 bytes to go" agree if and only if the trigger is not reached or (pending * 100) mod 2^64 lies between a hundred triggers and 2^63 - 1 |
| `Dashboard.PercentAgrees` | dashboard.go:152-155 | They agree for every backlog below 2^63 / 100 bytes, and the percentage is within 0 to 100 |
| `Dashboard.FiguresBelowTrigger` | dashboard.go:151-155 | Below the trigger the bytes to go are what is missing of it, and the percentage is the backlog's share of it, rounded down |
| `Dashboard.PercentOverflows` | dashboard.go:152-155 | A backlog on which the product wraps and the percentage is negative |
| `Dashboard.FirstIsOldest` | dashboard.go:140-145 | The first candidate carries the minimum acceptance time |
| `Dashboard.ZeroMeansReserve` | dashboard.go:151-161 | A zero on the dashboard means that the next reservation forms a package; outside a round only a zero does |
| `Dashboard.IdentityReserves` | dashboard.go:146-150 | Identity projects with a backlog always reserve, as their zeroes say |

## Left out

- Rows' `updated_at` columns, and the columns that follow from the package ID (project, packager, file names): no rule reads them.
- Ties on `package_id` in ORDER BY clauses: the order of hashes is left open, so the queries are proved to return some first row.
- `packages.build_error` of a blocked package is kept as the map of messages, not as their sorted and joined text.
- Package and manifest paths are keyed by package, so two packages whose file names collide (the same project and 24-digit prefix, or a project name that continues another's) are not part of this model.
- Power loss is modelled for the package storage alone; receipts and uploads are proved durable under process crashes only, because the fast path of `accept` (server.go:172-174) does not repeat the directory sync.
- A SQL statement that fails is taken to have changed nothing, and one that reports success to be durable.
- `time.Duration` overflow and saturation: instants and durations are unbounded integers.
- Artifact and backlog sums are unbounded; only the dashboard's product by 100 is modelled in 64 bits.
- The Lifecycle machine leaves open when the hourly reconciliation and the sweep run, and which checksum the client declared; `Acceptance` has the checksum comparison.
- HTTP routing, tusd's request handling, file locks and flock: modelled by their contracts (one lock per upload held over PATCH, acceptance, cleanup and source purge; a complete upload answers a further PATCH without a receipt).
- WARC parsing, Zstandard, BLAKE3, SHA-256, JSON and base64: abstract functions or outcomes; a plan that does not decode is one outcome of a claim.
- Internet Archive uploads and credentials: one outcome and some snapshots per attempt.
- Delivery plan templates, identifier and remote-name patterns: a plan is an opaque value that resolves or does not.
- Session URL and hex checks of `validateSession`, and the hashing phase's progress snapshots.
- `releaseOrphanedUploadLocks`, lock files and `.stop` files: the locks they stand for are released by a crash step.
- The order in which several PATCH requests on one upload record their end (upload_cleanup.go:47-52): claims are about the recorded times only.
- Free-space checks, schema migration, configuration parsing, HTML templates, the other dashboard figures, `packages` output and logging.
- Scheduler: uploads are taken to send finitely many snapshots and to return once their context is cancelled; the poll timers may fire at any time.
- WorkLoop.DeliveryWorker.RunPackagingScheduler: files enter as the outcomes of merging, removing and unlinking; their step-by-step treatment is in Lifecycle.
- UploadCleanup.Receiver.PartialUploads: one look at an upload, and what a cleanup does under the lock, are one instant each; uploads created during a sweep, which its listing does not hold, are no event.
- UploadCleanup.Receiver.EndPatch: recording the end of a request is one step that succeeds or leaves the recorded time alone; its single file calls are not told apart.
- Discovery.DiscoverAccepted: directory and upload store are one snapshot and no other writer interferes; `Discovery.ScanWithinARun` treats the interleaved scan. An upload store that cannot load an object is one outcome per object, whatever file call failed.
- Discovery.ScanIndexesExactlyTheReceipted: the state stands still during the scan, for the same reason; over a run objects receipted after the listing wait for their own indexing or the next scan.
