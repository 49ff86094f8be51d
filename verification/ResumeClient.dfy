/**
 The client's resume loop against a receiver that other clients use too. Every exchange may be
 refused, or lost on the way there or back; the context ends when the script of rounds does.
 */
module ResumeClient {
  import opened Wrappers
  import opened Sequences
  import opened Lifecycle
  import opened Acceptance

  datatype Session = Session(objectId: string, checksum: string, size: int)

  /** Answered; lost before the receiver saw it; lost on the way back; refused with a status before
      any handler saw it. */
  datatype Fate = Answered | LostRequest | LostAnswer | Refused(status: int)

  datatype Foreign = ForeignPatch(o: string, offset: int, body: Bytes, fault: Fault) | ForeignRemoval(o: string)

  /** What one turn of the loop meets. `arrived` bounds the bytes of a body whose answer is lost,
      `chunks` are the sizes the transport asks for, `alive` says that the context survives the wait. */
  datatype Round = Round(
    before: seq<Foreign>,
    head: Fate,
    between: seq<Foreign>,
    patch: Fate,
    arrived: nat,
    chunks: seq<nat>,
    get: Fate,
    fault: Fault,
    indexFails: bool,
    now: int,
    alive: bool)

  datatype Reason = InvalidSession | ContentChanged | ContextEnded | Unexpected(status: int) | BadOffset | NoReceipt | ReceiptMismatch

  datatype Outcome = Done(receipt: Receipt) | Error(reason: Reason)

  datatype Turn = Again | Finished(outcome: Outcome)

  predicate Retryable(status: int) {
    status == 429 || status == 503
  }

  // ---------- Progress ----------

  /** Snapshots of one PATCH: never backwards, never outside 0 to size. */
  ghost predicate Climbs(reports: seq<int>, size: int) {
    && (forall i :: 0 <= i < |reports| ==> 0 <= reports[i] <= size)
    && (forall i, j :: 0 <= i < j < |reports| ==> reports[i] <= reports[j])
  }

  lemma ClimbsNext(reports: seq<int>, done: int, next: int)
    requires Climbs(reports, done) && 0 <= done <= next
    ensures Climbs(reports, next) && Climbs(reports + [next], next)
  {
  }

  class ProgressReader {
    const content: Bytes
    var position: nat
    var done: int
    var reports: seq<int>

    constructor (content: Bytes, position: nat)
      requires position <= |content|
      ensures this.content == content && this.position == position && done == position && reports == []
    {
      this.content, this.position, done, reports := content, position, position, [];
    }

    /** One Read of at most n bytes, reported if it brought any. */
    method Read(n: nat) returns (bytes: Bytes)
      requires position <= |content|
      modifies this
      ensures position == old(position) + |bytes| <= |content| && |bytes| <= n
      ensures bytes == content[old(position)..position]
      ensures done == old(done) + |bytes|
      ensures reports == if |bytes| > 0 then old(reports) + [done] else old(reports)
      ensures |bytes| == n || position == |content|
    {
      var k := if n <= |content| - position then n else |content| - position;
      bytes := content[position..position + k];
      position := position + k;
      done := done + k;
      if k > 0 {
        reports := reports + [done];
      }
    }
  }

  function Least(a: int, b: int): int {
    if a < b then a else b
  }

  /** The request body: io.LimitReader over the progress reader, read in the chunks that the transport
      asks for. */
  method ReadBody(content: Bytes, offset: nat, size: int, chunks: seq<nat>) returns (body: Bytes, reports: seq<int>)
    requires offset <= |content| && offset <= size
    ensures offset + |body| <= |content| && offset + |body| <= size
    ensures body == content[offset..offset + |body|]
    ensures Climbs(reports, size)
    ensures reports != [] ==> offset <= reports[0] && reports[|reports| - 1] == offset + |body|
    ensures |content| >= size ==> |body| == Least(Sum(chunks), size - offset)
  {
    var reader := new ProgressReader(content, offset);
    body := [];
    for i := 0 to |chunks|
      invariant reader.content == content && reader.position == offset + |body| <= |content|
      invariant reader.done == reader.position <= size
      invariant body == content[offset..reader.position]
      invariant Climbs(reader.reports, reader.done)
      invariant |content| >= size ==> |body| == Least(Sum(chunks[..i]), size - offset)
      invariant reader.reports != [] ==> offset <= reader.reports[0] && reader.reports[|reader.reports| - 1] == reader.done
    {
      SumSnoc(chunks, i);
      var left := size - offset - |body|;
      ghost var earlier, before := reader.reports, reader.done;
      var bytes := reader.Read(if chunks[i] <= left then chunks[i] else left);
      ClimbsNext(earlier, before, reader.done);
      body := body + bytes;
    }
    assert chunks[..|chunks|] == chunks;
    reports := reader.reports;
  }

  // ---------- The state of an upload ----------

  /** The receipt names the session's checksum and size; its object ID is that of the request. */
  predicate Matches(receipt: Receipt, session: Session) {
    receipt.checksum == session.checksum && receipt.size == session.size
  }

  /** Resuming can complete the upload: both its files are there with the session's size and checksum,
      the stored bytes are the beginning of the content, and a complete upload has its receipt. */
  ghost predicate Completable(server: Server, session: Session, content: Bytes)
    reads server
  {
    var o := session.objectId;
    && session.size >= 1
    && o in server.uploads && o in server.infos
    && server.infos[o].size == session.size == |content|
    && server.infos[o].checksum == session.checksum == server.digest(content)
    && server.uploads[o] <= content
    && (|server.uploads[o]| == session.size ==> o in server.receipts)
  }

  /** The content is the one that the session was created for. */
  ghost predicate Fits(server: Server, session: Session, content: Bytes) {
    |content| == session.size && server.digest(content) == session.checksum
  }

  /** A receipt of a completable upload matches the session. */
  lemma CompletableMatches(server: Server, session: Session, content: Bytes)
    requires server.Valid() && Completable(server, session, content)
    ensures session.objectId in server.receipts ==> Matches(server.receipts[session.objectId], session)
  {
    if session.objectId in server.receipts {
      assert server.Vouches(session.objectId);
    }
  }

  /** A matching receipt of an upload that is still there means that it was completable. */
  lemma MatchedIsCompletable(server: Server, session: Session, content: Bytes)
    requires server.Valid() && Injective(server.digest) && Fits(server, session, content) && session.size >= 1
    requires session.objectId in server.uploads && session.objectId in server.infos
    requires session.objectId in server.receipts && Matches(server.receipts[session.objectId], session)
    ensures Completable(server, session, content)
  {
    assert server.Vouches(session.objectId);
  }

  /** Nothing is left to resume: a file of the upload is gone, or all its bytes are there and its
      acceptance failed. */
  ghost predicate Hopeless(server: Server, session: Session)
    reads server
  {
    var o := session.objectId;
    || o !in server.uploads || o !in server.infos
    || (|server.uploads[o]| == server.infos[o].size && o !in server.receipts)
  }

  lemma PrefixGrows(stored: Bytes, body: Bytes, content: Bytes)
    requires |stored| + |body| <= |content| && body == content[|stored|..|stored| + |body|]
    ensures stored + body <= content <==> stored <= content
  {
    if stored <= content {
      assert stored == content[..|stored|];
      assert stored + body == content[..|stored| + |body|];
    }
    if stored + body <= content {
      assert (stored + body)[..|stored|] == stored;
    }
  }

  // ---------- Interference ----------

  /** Published receipts never change. */
  ghost predicate Kept(before: map<string, Receipt>, after: map<string, Receipt>) {
    forall o :: o in before ==> o in after && after[o] == before[o]
  }

  /** Another client sends the same content, and nobody removes the upload. */
  ghost predicate Friendly(step: Foreign, session: Session, content: Bytes) {
    match step
    case ForeignPatch(o, offset, body, fault) =>
      o == session.objectId ==>
        fault == NoFault
        && (0 <= offset && offset + |body| <= |content| ==> body == content[offset..offset + |body|])
    case ForeignRemoval(o) => o != session.objectId
  }

  ghost predicate AllFriendly(steps: seq<Foreign>, session: Session, content: Bytes) {
    forall i :: 0 <= i < |steps| ==> Friendly(steps[i], session, content)
  }

  /** How many bytes of the session's upload are stored afterwards. */
  function Grown(stored: int, step: Foreign, session: Session): int {
    match step
    case ForeignPatch(o, offset, body, _) =>
      if o == session.objectId && offset == stored && stored != session.size && stored + |body| <= session.size
      then stored + |body|
      else stored
    case ForeignRemoval(_) => stored
  }

  function GrownBy(stored: int, steps: seq<Foreign>, session: Session): int {
    if steps == [] then stored
    else Grown(GrownBy(stored, steps[..|steps| - 1], session), steps[|steps| - 1], session)
  }

  lemma {:induction false} GrownWithin(stored: int, steps: seq<Foreign>, session: Session)
    requires stored <= session.size
    ensures stored <= GrownBy(stored, steps, session) <= session.size
  {
    if steps != [] {
      GrownWithin(stored, steps[..|steps| - 1], session);
    }
  }

  /** What another client or the packager does to the receiver. */
  method Disturb(server: Server, step: Foreign, now: int, ghost session: Session, ghost content: Bytes)
    requires server.Valid()
    modifies server, server.store
    ensures server.Valid() && Kept(old(server.receipts), server.receipts)
    ensures old(Hopeless(server, session)) ==> Hopeless(server, session)
    ensures forall o :: o in server.infos ==> o in old(server.infos) && server.infos[o] == old(server.infos)[o]
    ensures Friendly(step, session, content) ==>
      && (Completable(server, session, content) <==> old(Completable(server, session, content)))
      && (Completable(server, session, content) ==>
            |server.uploads[session.objectId]| == Grown(|old(server.uploads)[session.objectId]|, step, session))
      && (session.objectId in old(server.uploads) ==> session.objectId in server.uploads)
      && (session.objectId in old(server.infos) ==> session.objectId in server.infos)
  {
    match step {
      case ForeignPatch(o, offset, body, fault) =>
        ghost var before := server.uploads;
        var response := server.Patch(o, offset, body, now, fault, false);
        if o == session.objectId && o in before && |before[o]| + |body| <= |content| && Friendly(step, session, content) {
          if offset == |before[o]| {
            PrefixGrows(before[o], body, content);
            assert before[o] + body <= content && |before[o] + body| == |content| ==> before[o] + body == content;
          }
        }
      case ForeignRemoval(o) =>
        server.Remove(o);
    }
  }

  method Interfere(server: Server, steps: seq<Foreign>, now: int, ghost session: Session, ghost content: Bytes)
    requires server.Valid()
    modifies server, server.store
    ensures server.Valid() && Kept(old(server.receipts), server.receipts)
    ensures old(Hopeless(server, session)) ==> Hopeless(server, session)
    ensures forall o :: o in server.infos ==> o in old(server.infos) && server.infos[o] == old(server.infos)[o]
    ensures AllFriendly(steps, session, content) ==>
      && (Completable(server, session, content) <==> old(Completable(server, session, content)))
      && (Completable(server, session, content) ==>
            |server.uploads[session.objectId]| == GrownBy(|old(server.uploads)[session.objectId]|, steps, session))
      && (session.objectId in old(server.uploads) ==> session.objectId in server.uploads)
      && (session.objectId in old(server.infos) ==> session.objectId in server.infos)
    ensures steps == [] ==>
      && server.uploads == old(server.uploads) && server.infos == old(server.infos)
      && server.receipts == old(server.receipts) && server.accepted == old(server.accepted)
  {
    for i := 0 to |steps|
      invariant server.Valid() && Kept(old(server.receipts), server.receipts)
      invariant old(Hopeless(server, session)) ==> Hopeless(server, session)
      invariant forall o :: o in server.infos ==> o in old(server.infos) && server.infos[o] == old(server.infos)[o]
      invariant AllFriendly(steps, session, content) ==>
        && (Completable(server, session, content) <==> old(Completable(server, session, content)))
        && (Completable(server, session, content) ==>
              |server.uploads[session.objectId]| == GrownBy(|old(server.uploads)[session.objectId]|, steps[..i], session))
        && (session.objectId in old(server.uploads) ==> session.objectId in server.uploads)
        && (session.objectId in old(server.infos) ==> session.objectId in server.infos)
      invariant i == 0 ==>
        && server.uploads == old(server.uploads) && server.infos == old(server.infos)
        && server.receipts == old(server.receipts) && server.accepted == old(server.accepted)
    {
      Disturb(server, steps[i], now, session, content);
      assert steps[..i + 1][..i] == steps[..i];
    }
    assert steps[..|steps|] == steps;
  }

  // ---------- One turn ----------

  method ValidateReceipt(receipt: Receipt, session: Session) returns (outcome: Outcome)
    ensures outcome == if Matches(receipt, session) then Done(receipt) else Error(ReceiptMismatch)
  {
    outcome := if Matches(receipt, session) then Done(receipt) else Error(ReceiptMismatch);
  }

  /** The receiver answers honestly: a receipt the client sees is the published one. */
  ghost predicate Backed(server: Server, session: Session, turn: Turn)
    reads server
  {
    turn.Finished? && turn.outcome.Done? ==>
      && session.objectId in server.receipts
      && server.receipts[session.objectId] == turn.outcome.receipt
      && Matches(turn.outcome.receipt, session)
  }

  method FetchReceipt(server: Server, session: Session, get: Fate) returns (turn: Turn)
    requires server.Valid()
    ensures Backed(server, session, turn) && turn.Finished?
    ensures session.objectId in server.receipts && Matches(server.receipts[session.objectId], session) ==>
      turn.outcome == if get.Answered? then Done(server.receipts[session.objectId]) else Error(NoReceipt)
    ensures session.objectId !in server.receipts ==> turn.outcome == Error(NoReceipt)
    ensures get.Answered? && session.objectId in server.receipts && !Matches(server.receipts[session.objectId], session) ==>
      turn.outcome == Error(ReceiptMismatch)
  {
    if !get.Answered? {
      return Finished(Error(NoReceipt));
    }
    var receipt := server.GetReceipt(session.objectId);
    if receipt.None? {
      return Finished(Error(NoReceipt));
    }
    var outcome := ValidateReceipt(receipt.value, session);
    turn := Finished(outcome);
  }

  /** What the client makes of a request that was lost or refused: it waits and starts over, unless the
      status is none that it retries. */
  ghost predicate Put(turn: Turn, round: Round, fate: Fate) {
    if fate.Refused? && fate.status != 429 && fate.status != 503 then turn == Finished(Error(Unexpected(fate.status)))
    else turn == if round.alive then Again else Finished(Error(ContextEnded))
  }

  /** offset: HEAD. Err(turn) ends or repeats the loop. */
  datatype Offset = At(offset: nat) | NotAt(turn: Turn)

  method InspectOffset(server: Server, session: Session, round: Round) returns (offset: Offset)
    requires server.Valid()
    ensures offset.At? ==>
      && round.head.Answered?
      && session.objectId in server.uploads && session.objectId in server.infos
      && server.infos[session.objectId].size == session.size
      && offset.offset == |server.uploads[session.objectId]| <= session.size
    ensures offset.NotAt? && offset.turn.Finished? ==> offset.turn.outcome.Error?
    ensures !round.head.Answered? ==> offset.NotAt? && Put(offset.turn, round, round.head)
    ensures round.head.Answered? && (session.objectId !in server.uploads || session.objectId !in server.infos) ==>
      offset == NotAt(Finished(Error(Unexpected(404))))
    ensures
      (&& offset.NotAt? && CalmFate(round.head) && round.alive
       && session.objectId in server.uploads && session.objectId in server.infos
       && server.infos[session.objectId].size == session.size) ==> offset.turn.Again? && !round.head.Answered?
  {
    if round.head.LostRequest? || round.head.LostAnswer? || (round.head.Refused? && Retryable(round.head.status)) {
      return NotAt(Wait(round));
    }
    if round.head.Refused? {
      return NotAt(Finished(Error(Unexpected(round.head.status))));
    }
    var found := server.Head(session.objectId);
    if found.None? {
      return NotAt(Finished(Error(Unexpected(404))));
    }
    if found.value.1 != session.size || found.value.0 > session.size {
      return NotAt(Finished(Error(BadOffset)));
    }
    offset := At(found.value.0);
  }

  // ---------- When nothing is wrong but the network ----------

  /** A fate that the client retries by itself. */
  predicate CalmFate(fate: Fate) {
    fate.Refused? ==> Retryable(fate.status)
  }

  /** Others at most send the same content, and the receiver works; HEAD and PATCH may be lost or put off
      in ways that the client retries, and the GET of the receipt may meet any fate. */
  ghost predicate Benign(round: Round, session: Session, content: Bytes) {
    && AllFriendly(round.before, session, content) && AllFriendly(round.between, session, content)
    && CalmFate(round.head) && (CalmFate(round.patch) || round.patch == Refused(409))
    && round.fault == NoFault && round.alive
  }

  /** HEAD and PATCH of the round come through, with nobody between them, and the whole body is read. */
  predicate Clear(round: Round, size: int) {
    round.head.Answered? && round.between == [] && round.patch.Answered? && Sum(round.chunks) >= size
  }

  /** The round comes to need the GET: HEAD reports that all bytes are stored. */
  predicate NeedsGet(round: Round, asked: int, size: int) {
    round.head.Answered? && asked == size
  }

  /** The PATCH brings the receipt back itself: it meets as many bytes as HEAD reported. */
  predicate Delivers(round: Round, asked: int, met: int, size: int) {
    && round.head.Answered? && asked == met < size
    && round.patch.Answered? && Sum(round.chunks) >= size - asked
  }

  /** What is stored after a PATCH that brings nothing back. */
  function SentAfter(round: Round, asked: int, met: int, size: int): int {
    if round.patch.Refused? || round.patch.LostRequest? || met != asked then met
    else met + Least(round.arrived, Least(Sum(round.chunks), size - asked))
  }

  /** What is stored after a round that ends without an answer. */
  function StoredAfter(round: Round, stored: int, session: Session): int {
    var asked := GrownBy(stored, round.before, session);
    if !round.head.Answered? || asked == session.size then asked
    else SentAfter(round, asked, GrownBy(asked, round.between, session), session.size)
  }

  datatype Ending = RunsOut | Received | MissedReceipt

  /** How the rounds end for a completable upload: with the first one that delivers, or that needs the
      GET, which is not retried. */
  function EndingOf(script: seq<Round>, stored: int, session: Session): Ending {
    if script == [] then RunsOut
    else
      var asked := GrownBy(stored, script[0].before, session);
      if NeedsGet(script[0], asked, session.size) then (if script[0].get.Answered? then Received else MissedReceipt)
      else if Delivers(script[0], asked, GrownBy(asked, script[0].between, session), session.size) then Received
      else EndingOf(script[1..], StoredAfter(script[0], stored, session), session)
  }

  lemma {:induction false} SumOfNats(chunks: seq<nat>)
    ensures Sum(chunks) >= 0
    decreases |chunks|
  {
    if chunks != [] {
      SumOfNats(chunks[..|chunks| - 1]);
    }
  }

  lemma StoredWithin(round: Round, stored: int, session: Session)
    requires 0 <= stored <= session.size
    ensures 0 <= StoredAfter(round, stored, session) <= session.size
  {
    SumOfNats(round.chunks);
    var asked := GrownBy(stored, round.before, session);
    GrownWithin(stored, round.before, session);
    GrownWithin(asked, round.between, session);
  }

  /** With a clear round the rounds do not run out, whatever the others send in the rounds before it, and
      if moreover every GET is answered, they end with the receipt. */
  lemma {:induction false} ClearRoundsEnd(script: seq<Round>, stored: int, session: Session, i: nat)
    requires i < |script| && Clear(script[i], session.size) && 0 <= stored <= session.size
    ensures !EndingOf(script, stored, session).RunsOut?
    ensures (forall j :: 0 <= j < |script| ==> script[j].get.Answered?) ==> EndingOf(script, stored, session).Received?
    decreases |script|
  {
    var asked := GrownBy(stored, script[0].before, session);
    GrownWithin(stored, script[0].before, session);
    StoredWithin(script[0], stored, session);
    if i > 0 {
      assert script[1..][i - 1] == script[i];
      ClearRoundsEnd(script[1..], StoredAfter(script[0], stored, session), session, i - 1);
    } else {
      assert GrownBy(asked, script[0].between, session) == asked;
    }
  }

  /** What arrives of the body at the receiver. A sound receiver keeps the upload as completable as it
      was. */
  method Send(server: Server, session: Session, content: Bytes, offset: nat, body: Bytes, round: Round)
    returns (response: Response)
    requires server.Valid() && offset + |body| <= |content| && body == content[offset..offset + |body|]
    requires offset < session.size
    modifies server, server.store
    ensures server.Valid()
    ensures Kept(old(server.receipts), server.receipts)
    ensures server.infos == old(server.infos) && server.uploads.Keys == old(server.uploads).Keys
    ensures response.NoContent? && response.receipt.Some? ==>
      session.objectId in server.receipts && server.receipts[session.objectId] == response.receipt.value
    ensures old(Hopeless(server, session)) ==>
      Hopeless(server, session) && (response.NotFound? || session.objectId !in server.receipts)
    ensures Overtaken(old(server.uploads), server.infos, session, offset) ==>
      && response == OffsetConflict && server.uploads == old(server.uploads)
      && (Completable(server, session, content) <==> old(Completable(server, session, content)))
    ensures Undisturbed(old(server.uploads), session, offset, round) ==>
      && (Completable(server, session, content) <==> old(Completable(server, session, content)))
      && (Completable(server, session, content) ==> |server.uploads[session.objectId]| == offset + |body|)
      && (Completable(server, session, content) && offset + |body| == session.size ==>
            response.NoContent? && response.receipt.Some?)
  {
    ghost var o := session.objectId;
    ghost var before := server.uploads;
    ghost var completable := Completable(server, session, content);
    response := server.Patch(session.objectId, offset, body, round.now, round.fault, round.indexFails);
    if Undisturbed(before, session, offset, round) {
      PrefixGrows(before[o], body, content);
      if completable {
        assert before[o] == content[..offset];
        assert server.uploads[o] == content[..offset + |body|];
        assert offset + |body| == session.size ==> server.uploads[o] == content;
      }
    }
  }

  /** The offset still is the stored length, and the receiver works. */
  ghost predicate Undisturbed(uploads: map<string, Bytes>, session: Session, offset: nat, round: Round) {
    session.objectId in uploads && |uploads[session.objectId]| == offset && round.fault == NoFault
  }

  /** Somebody else appended since HEAD: the upload is there, and another number of bytes is stored. */
  ghost predicate Overtaken(uploads: map<string, Bytes>, infos: map<string, Info>, session: Session, offset: nat) {
    session.objectId in uploads && session.objectId in infos && |uploads[session.objectId]| != offset
  }

  /** What the client makes of an answer to PATCH; `settled` tells whether it reports completion. */
  method Conclude(server: Server, session: Session, response: Response, round: Round) returns (turn: Turn, settled: bool)
    requires server.Valid()
    requires response.NoContent? && response.receipt.Some? ==>
      session.objectId in server.receipts && server.receipts[session.objectId] == response.receipt.value
    ensures Backed(server, session, turn)
    ensures turn.Finished? && turn.outcome.Done? ==> settled
    ensures response.NoContent? && response.receipt.Some? && Matches(response.receipt.value, session) ==>
      turn.Finished? && turn.outcome.Done?
    ensures response.OffsetConflict? ==> turn == (if round.alive then Again else Finished(Error(ContextEnded))) && !settled
    ensures response.NotFound? ==> turn == Finished(Error(Unexpected(404)))
    ensures response.Unprocessable? ==> turn == Finished(Error(Unexpected(422)))
    ensures response.ServerError? ==> turn == Finished(Error(Unexpected(500)))
  {
    settled := false;
    match response {
      case NoContent(receipt) =>
        if receipt.Some? {
          var outcome := ValidateReceipt(receipt.value, session);
          turn, settled := Finished(outcome), true;
        } else {
          turn := FetchReceipt(server, session, round.get);
          settled := turn.outcome != Error(NoReceipt);
        }
      case OffsetConflict => turn := Wait(round);
      case NotFound => turn := Finished(Error(Unexpected(404)));
      case Unprocessable => turn := Finished(Error(Unexpected(422)));
      case TooLarge => turn := Finished(Error(Unexpected(413)));
      case ServerError => turn := Finished(Error(Unexpected(500)));
    }
  }

  function Wait(round: Round): Turn {
    if round.alive then Again else Finished(Error(ContextEnded))
  }

  lemma PrefixOfSlice(content: Bytes, offset: nat, body: Bytes, k: nat)
    requires offset + |body| <= |content| && body == content[offset..offset + |body|] && k <= |body|
    ensures body[..k] == content[offset..offset + k]
  {
  }

  /** What the PATCH of a benign round comes to for a completable upload, of which `met` bytes are stored
      when it arrives. */
  ghost predicate PatchFollows(turn: Turn, round: Round, asked: int, met: int, after: int, size: int) {
    if Delivers(round, asked, met, size) then turn.Finished? && turn.outcome.Done?
    else turn.Again? && after == SentAfter(round, asked, met, size)
  }

  /** The PATCH with the body that was read, once it left the client. */
  method SendBody(server: Server, session: Session, content: Bytes, offset: nat, body: Bytes, round: Round)
    returns (turn: Turn, settled: bool)
    requires server.Valid() && offset < session.size <= |content| && round.head.Answered?
    requires |body| == Least(Sum(round.chunks), session.size - offset) && body == content[offset..offset + |body|]
    requires round.patch.Answered? || round.patch.LostAnswer?
    modifies server, server.store
    ensures server.Valid() && Backed(server, session, turn) && Kept(old(server.receipts), server.receipts)
    ensures server.infos == old(server.infos) && server.uploads.Keys == old(server.uploads).Keys
    ensures turn.Finished? && turn.outcome.Done? ==> settled
    ensures old(Hopeless(server, session)) ==> Hopeless(server, session) && (turn.Again? || turn.outcome.Error?)
    ensures Overtaken(old(server.uploads), server.infos, session, offset) && round.alive ==>
      turn.Again? && server.uploads == old(server.uploads)
    ensures session.objectId in old(server.uploads) && round.fault == NoFault && round.alive ==>
      && (Completable(server, session, content) <==> old(Completable(server, session, content)))
      && (Completable(server, session, content) ==>
            PatchFollows(turn, round, offset, |old(server.uploads)[session.objectId]|,
                         |server.uploads[session.objectId]|, session.size))
  {
    if round.patch.LostAnswer? || offset + |body| < session.size {
      var k := if round.arrived <= |body| then round.arrived else |body|;
      PrefixOfSlice(content, offset, body, k);
      var lost := Send(server, session, content, offset, body[..k], round);
      return Wait(round), false;
    }
    var response := Send(server, session, content, offset, body, round);
    if Completable(server, session, content) {
      CompletableMatches(server, session, content);
    }
    turn, settled := Conclude(server, session, response, round);
  }

  /** Seek, PATCH and what follows from its answer. */
  method SendRest(server: Server, session: Session, content: Bytes, offset: nat, round: Round)
    returns (turn: Turn, reports: seq<int>)
    requires server.Valid() && offset < session.size <= |content| && round.head.Answered?
    modifies server, server.store
    ensures server.Valid() && Backed(server, session, turn) && Kept(old(server.receipts), server.receipts)
    ensures server.infos == old(server.infos) && server.uploads.Keys == old(server.uploads).Keys
    ensures Climbs(reports, session.size) && |reports| > 0 && reports[0] == offset
    ensures turn.Finished? && turn.outcome.Done? ==> reports[|reports| - 1] == session.size
    ensures old(Hopeless(server, session)) ==> Hopeless(server, session) && (turn.Again? || turn.outcome.Error?)
    ensures round.patch.LostRequest? || (round.patch.Refused? && round.patch.status != 409) ==>
      Put(turn, round, round.patch) && server.uploads == old(server.uploads)
    ensures Overtaken(old(server.uploads), server.infos, session, offset) && round.alive
            && (CalmFate(round.patch) || round.patch == Refused(409)) ==>
      turn.Again? && server.uploads == old(server.uploads)
    ensures session.objectId in old(server.uploads) && Benign(round, session, content) ==>
      && (Completable(server, session, content) <==> old(Completable(server, session, content)))
      && (Completable(server, session, content) ==>
            PatchFollows(turn, round, offset, |old(server.uploads)[session.objectId]|,
                         |server.uploads[session.objectId]|, session.size))
  {
    var body;
    body, reports := ReadBody(content, offset, session.size, round.chunks);
    reports := [offset] + reports;
    if round.patch.Refused? {
      if Retryable(round.patch.status) || round.patch.status == 409 {
        return Wait(round), reports;
      }
      return Finished(Error(Unexpected(round.patch.status))), reports;
    }
    if round.patch.LostRequest? {
      return Wait(round), reports;
    }
    var settled;
    turn, settled := SendBody(server, session, content, offset, body, round);
    if settled {
      reports := reports + [session.size];
    }
  }

  /** What a benign round comes to for a completable upload. */
  ghost predicate Follows(turn: Turn, round: Round, stored: int, after: int, session: Session) {
    var asked := GrownBy(stored, round.before, session);
    if NeedsGet(round, asked, session.size) then
      turn.Finished? && (if round.get.Answered? then turn.outcome.Done? else turn.outcome == Error(NoReceipt))
    else if !round.head.Answered? then turn.Again? && after == asked
    else PatchFollows(turn, round, asked, GrownBy(asked, round.between, session), after, session.size)
  }

  /** The uploads as HEAD and PATCH of one turn find them. */
  datatype Trail = Trail(asked: map<string, Bytes>, met: map<string, Bytes>)

  /** HEAD reported a part of the upload, and then somebody else appended: the upload is still there, but
      not with that many bytes. */
  ghost predicate OvertakenOn(trail: Trail, infos: map<string, Info>, session: Session) {
    && session.objectId in trail.asked && session.objectId in infos && infos[session.objectId].size == session.size
    && |trail.asked[session.objectId]| < session.size
    && session.objectId in trail.met && |trail.met[session.objectId]| != |trail.asked[session.objectId]|
  }

  /** The turn from the answer to HEAD on, while bytes are missing. */
  method Proceed(server: Server, session: Session, content: Bytes, offset: nat, round: Round)
    returns (turn: Turn, reports: seq<int>, ghost met: map<string, Bytes>)
    requires server.Valid() && offset < session.size <= |content| && round.head.Answered?
    modifies server, server.store
    ensures server.Valid() && Backed(server, session, turn) && Kept(old(server.receipts), server.receipts)
    ensures forall o :: o in server.infos ==> o in old(server.infos) && server.infos[o] == old(server.infos)[o]
    ensures Climbs(reports, session.size)
    ensures Overtaken(met, server.infos, session, offset) && round.alive
            && (CalmFate(round.patch) || round.patch == Refused(409)) ==>
      turn.Again? && server.uploads == met
    ensures old(Hopeless(server, session)) ==> Hopeless(server, session) && (turn.Again? || turn.outcome.Error?)
    ensures session.objectId in old(server.uploads) && session.objectId in old(server.infos) && Benign(round, session, content) ==>
      && session.objectId in server.uploads && session.objectId in server.infos
      && (Completable(server, session, content) <==> old(Completable(server, session, content)))
    ensures old(Completable(server, session, content)) && Benign(round, session, content)
            && |old(server.uploads)[session.objectId]| == offset ==>
      PatchFollows(turn, round, offset, GrownBy(offset, round.between, session),
                   |server.uploads[session.objectId]|, session.size)
  {
    Interfere(server, round.between, round.now, session, content);
    met := server.uploads;
    turn, reports := SendRest(server, session, content, offset, round);
  }

  /** One turn of the loop. */
  method Try(server: Server, session: Session, content: Bytes, round: Round)
    returns (turn: Turn, reports: seq<int>, ghost trail: Trail)
    requires server.Valid() && |content| >= session.size
    modifies server, server.store
    ensures server.Valid() && Backed(server, session, turn)
    ensures Kept(old(server.receipts), server.receipts)
    ensures Climbs(reports, session.size)
    ensures round.before == [] ==> trail.asked == old(server.uploads)
    ensures !round.head.Answered? ==> Put(turn, round, round.head)
    ensures OvertakenOn(trail, server.infos, session) && round.head.Answered? && round.alive
            && (CalmFate(round.patch) || round.patch == Refused(409)) ==>
      turn.Again? && server.uploads == trail.met
    ensures old(Hopeless(server, session)) ==> Hopeless(server, session) && (turn.Again? || turn.outcome.Error?)
    ensures Benign(round, session, content) ==>
      (Completable(server, session, content) <==> old(Completable(server, session, content)))
    ensures Benign(round, session, content) && turn.Finished? && turn.outcome.Done? ==>
      session.objectId in server.uploads && session.objectId in server.infos
    ensures Benign(round, session, content) && old(Completable(server, session, content)) ==>
      Follows(turn, round, |old(server.uploads)[session.objectId]|, |server.uploads[session.objectId]|, session)
  {
    Interfere(server, round.before, round.now, session, content);
    trail := Trail(server.uploads, server.uploads);
    var at := InspectOffset(server, session, round);
    if at.NotAt? {
      return at.turn, [], trail;
    }
    if at.offset == session.size {
      if Completable(server, session, content) {
        CompletableMatches(server, session, content);
      }
      turn := FetchReceipt(server, session, round.get);
      return turn, [at.offset], trail;
    }
    ghost var met;
    turn, reports, met := Proceed(server, session, content, at.offset, round);
    trail := trail.(met := met);
  }

  // ---------- Creating ----------

  /** inspectContentWithProgress: the length that seeking reports, and the bytes that reading then
      brings; None when the content is empty or changed its size meanwhile. */
  method InspectContent(server: Server, measured: int, content: Bytes) returns (inspected: Option<(int, string)>)
    ensures inspected.Some? <==> measured >= 1 && |content| == measured
    ensures inspected.Some? ==> inspected.value == (|content|, server.digest(content))
  {
    if measured < 1 || |content| != measured {
      return None;
    }
    inspected := Some((measured, server.digest(content)));
  }

  datatype Attempt = Attempt(fate: Fate, objectId: string, alive: bool)

  /** The first request that is not put off comes through. */
  ghost predicate Reaches(script: seq<Attempt>) {
    exists i :: 0 <= i < |script| && script[i].fate.Answered? && PutOff(script, i)
  }

  /** The first n requests are refused for later, and the context survives the waits. */
  ghost predicate PutOff(script: seq<Attempt>, n: int) {
    forall j :: 0 <= j < n <= |script| ==>
      script[j].fate.Refused? && Retryable(script[j].fate.status) && script[j].alive
  }

  ghost predicate Fresh(server: Server, script: seq<Attempt>)
    reads server
  {
    forall i :: 0 <= i < |script| ==>
      var o := script[i].objectId;
      o !in server.uploads && o !in server.infos && o !in server.receipts
  }

  /** The receiver would admit this content for the project. */
  ghost predicate Uploadable(server: Server, project: string, measured: int, content: Bytes) {
    1 <= measured == |content| && server.Admits(Info(measured, project, "", server.digest(content)))
  }

  /** CreateWithProgress: only a refusal that asks to come back is retried. There is a session exactly
      if the content is admissible and its first request that is not put off comes through; its upload
      is completable. */
  method CreateUpload(server: Server, project: string, filename: string, measured: int, content: Bytes, script: seq<Attempt>)
    returns (session: Option<Session>)
    requires server.Valid() && Fresh(server, script)
    modifies server
    ensures server.Valid()
    ensures session.Some? <==> Uploadable(server, project, measured, content) && Reaches(script)
    ensures session.Some? ==> Completable(server, session.value, content) && Fits(server, session.value, content)
    ensures session.Some? ==> server.uploads[session.value.objectId] == []
  {
    var inspected := InspectContent(server, measured, content);
    if inspected.None? {
      return None;
    }
    var (size, checksum) := inspected.value;
    for i := 0 to |script|
      invariant server.Valid() && server.uploads == old(server.uploads) && server.infos == old(server.infos)
      invariant server.receipts == old(server.receipts)
      invariant PutOff(script, i)
    {
      var o := script[i].objectId;
      match script[i].fate {
        case LostRequest => return None;
        case Refused(status) =>
          if !Retryable(status) || !script[i].alive {
            return None;
          }
        case LostAnswer =>
          var created := server.Create(o, Info(size, project, filename, checksum));
          return None;
        case Answered =>
          var created := server.Create(o, Info(size, project, filename, checksum));
          if !created {
            return None;
          }
          return Some(Session(o, checksum, size));
      }
    }
    session := None;
  }

  // ---------- The loop ----------

  /** resume. If it returns a receipt, the receiver stored exactly the client's content when it
      published that receipt, whatever was retried, lost or appended by others. When nothing is wrong
      but the network, and others send nothing but the same content, it returns one exactly if the upload
      was completable and its rounds end with the receipt (EndingOf): one delivers it, or the first that
      needs the GET has it answered. And it never brings back an upload that is gone or whose acceptance
      failed. */
  method Resume(server: Server, session: Session, content: Bytes, verify: bool, script: seq<Round>)
    returns (outcome: Outcome, ghost reports: seq<seq<int>>)
    requires server.Valid() && Injective(server.digest)
    requires !verify ==> Fits(server, session, content)
    modifies server, server.store
    ensures server.Valid()
    ensures Kept(old(server.receipts), server.receipts)
    ensures outcome.Done? ==>
      && session.objectId in server.receipts && server.receipts[session.objectId] == outcome.receipt
      && server.accepted[session.objectId] == content
    ensures forall i :: 0 <= i < |reports| ==> Climbs(reports[i], session.size)
    ensures AllBenign(script, session, content) ==>
      if old(Completable(server, session, content))
      then Ends(outcome, EndingOf(script, |old(server.uploads)[session.objectId]|, session))
      else outcome.Error?
    ensures AllBenign(script, session, content) ==>
      (Completable(server, session, content) <==> old(Completable(server, session, content)))
    ensures old(Hopeless(server, session)) ==> outcome.Error?
  {
    reports := [];
    if session.size < 1 {
      return Error(InvalidSession), reports;
    }
    if verify {
      var inspected := InspectContent(server, |content|, content);
      if inspected.None? || inspected.value.0 != session.size || inspected.value.1 != session.checksum {
        return Error(ContentChanged), reports;
      }
    }
    ghost var completable := Completable(server, session, content);
    ghost var stored := if completable then |server.uploads[session.objectId]| else 0;
    for i := 0 to |script|
      invariant server.Valid() && Kept(old(server.receipts), server.receipts)
      invariant forall j :: 0 <= j < |reports| ==> Climbs(reports[j], session.size)
      invariant AllBenign(script, session, content) ==>
        && (Completable(server, session, content) <==> completable)
        && (completable ==>
              EndingOf(script, stored, session) == EndingOf(script[i..], |server.uploads[session.objectId]|, session))
      invariant old(Hopeless(server, session)) ==> Hopeless(server, session)
    {
      assert script[i..][0] == script[i] && script[i..][1..] == script[i + 1..];
      ghost var trail;
      var turn, snapshots;
      turn, snapshots, trail := Try(server, session, content, script[i]);
      reports := reports + [snapshots];
      if turn.Finished? {
        if turn.outcome.Done? {
          assert server.Vouches(session.objectId);
          if AllBenign(script, session, content) {
            MatchedIsCompletable(server, session, content);
          }
        }
        return turn.outcome, reports;
      }
    }
    outcome := Error(ContextEnded);
  }

  ghost predicate Ends(outcome: Outcome, ending: Ending) {
    match ending
    case RunsOut => outcome == Error(ContextEnded)
    case Received => outcome.Done?
    case MissedReceipt => outcome == Error(NoReceipt)
  }

  ghost predicate AllBenign(script: seq<Round>, session: Session, content: Bytes) {
    forall i :: 0 <= i < |script| ==> Benign(script[i], session, content)
  }

  /** UploadWithProgress: create, then resume without hashing again. An admissible content whose requests
      come through is uploaded. */
  method Upload(server: Server, project: string, filename: string, measured: int, content: Bytes,
                attempts: seq<Attempt>, script: seq<Round>)
    returns (outcome: Option<Outcome>, ghost session: Option<Session>)
    requires server.Valid() && Injective(server.digest) && Fresh(server, attempts)
    modifies server, server.store
    ensures server.Valid()
    ensures session.Some? == outcome.Some? == (Uploadable(server, project, measured, content) && Reaches(attempts))
    ensures outcome.Some? && outcome.value.Done? ==>
      && session.value.objectId in server.receipts
      && server.receipts[session.value.objectId] == outcome.value.receipt
      && server.accepted[session.value.objectId] == content
    ensures outcome.Some? && AllBenign(script, session.value, content) ==>
      Ends(outcome.value, EndingOf(script, 0, session.value))
  {
    var created := CreateUpload(server, project, filename, measured, content, attempts);
    session := created;
    if created.None? {
      return None, session;
    }
    var result;
    ghost var reports;
    result, reports := Resume(server, created.value, content, false, script);
    outcome := Some(result);
  }

  // ---------- Three ways to miss a receipt ----------

  /** All bytes are stored: the first round that gets through to HEAD needs the GET. */
  lemma CompleteNeedsGet(script: seq<Round>, session: Session)
    requires script != [] && script[0].head.Answered? && !script[0].get.Answered?
    ensures EndingOf(script, session.size, session) == MissedReceipt
  {
    GrownWithin(session.size, script[0].before, session);
  }

  /** Acceptance fails once, on the PATCH that completes the upload: no later resume ever gets the
      receipt, although the receiver holds the client's bytes. */
  method FailedAcceptanceIsFinal(server: Server, o: string, project: string, content: Bytes, fault: Fault, now: int,
                                 script: seq<Round>) returns (outcome: Outcome)
    requires server.Valid() && Injective(server.digest)
    requires o !in server.uploads && o !in server.infos && o !in server.receipts
    requires Uploadable(server, project, |content|, content)
    requires fault != NoFault && fault != WriteFails(true)
    modifies server, server.store
    ensures outcome.Error?
  {
    var session := Session(o, server.digest(content), |content|);
    var created := server.Create(o, Info(|content|, project, "", server.digest(content)));
    var response := server.Patch(o, 0, content, now, fault, false);
    assert [] + content == content;
    assert server.uploads[o] == content && o !in server.receipts;
    ghost var reports;
    outcome, reports := Resume(server, session, content, true, script);
  }

  /** The upload is accepted, the answer is lost, and the packager purges the source before the client
      asks again: its resume fails although the matching receipt is published. */
  method PurgedBeforeAsked(server: Server, o: string, project: string, content: Bytes, now: int, script: seq<Round>)
    returns (outcome: Outcome)
    requires server.Valid() && Injective(server.digest)
    requires o !in server.uploads && o !in server.infos && o !in server.receipts
    requires Uploadable(server, project, |content|, content)
    requires AllBenign(script, Session(o, server.digest(content), |content|), content)
    modifies server, server.store
    ensures o in server.receipts && Matches(server.receipts[o], Session(o, server.digest(content), |content|))
    ensures outcome.Error?
  {
    var session := Session(o, server.digest(content), |content|);
    var created := server.Create(o, Info(|content|, project, "", server.digest(content)));
    var response := server.Patch(o, 0, content, now, NoFault, false);
    assert [] + content == content;
    assert server.uploads[o] == content && o in server.receipts;
    assert server.Vouches(o);
    server.Remove(o);
    ghost var reports;
    outcome, reports := Resume(server, session, content, true, script);
  }

  /** The upload is accepted and still there, the answer is lost, and so is the receipt's GET, or it is put
      off: the resume fails at once, although asking again would have brought the receipt. */
  method ReceiptNotAskedAgain(server: Server, o: string, project: string, content: Bytes, now: int, script: seq<Round>)
    returns (outcome: Outcome)
    requires server.Valid() && Injective(server.digest)
    requires o !in server.uploads && o !in server.infos && o !in server.receipts
    requires Uploadable(server, project, |content|, content)
    requires AllBenign(script, Session(o, server.digest(content), |content|), content)
    requires script != [] && script[0].head.Answered? && !script[0].get.Answered?
    modifies server, server.store
    ensures outcome == Error(NoReceipt)
    ensures o in server.receipts && Matches(server.receipts[o], Session(o, server.digest(content), |content|))
    ensures Completable(server, Session(o, server.digest(content), |content|), content)
  {
    var session := Session(o, server.digest(content), |content|);
    var created := server.Create(o, Info(|content|, project, "", server.digest(content)));
    var response := server.Patch(o, 0, content, now, NoFault, false);
    assert [] + content == content;
    assert server.uploads[o] == content && o in server.receipts;
    assert server.Vouches(o);
    CompleteNeedsGet(script, session);
    ghost var reports;
    outcome, reports := Resume(server, session, content, true, script);
  }
}
