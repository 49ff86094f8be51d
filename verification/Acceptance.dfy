/**
 The receiver's side of one upload: creation, appending PATCH bodies at the stored offset, acceptance
 of a complete upload, and the receipt.
 */
module Acceptance {
  import opened Wrappers
  import opened Clock
  import opened PackageNames
  import opened Store
  import opened Lifecycle

  /** Where acceptance may fail; a receipt can be published by a call that then fails to sync. */
  datatype Fault = NoFault | ProjectGone | ReceiptUnreadable | SyncFails | WriteFails(published: bool)

  datatype Verdict = Granted(receipt: Receipt) | Mismatch | NotGranted

  datatype Response =
    | NoContent(receipt: Option<Receipt>)
    | OffsetConflict
    | NotFound
    | Unprocessable
    | TooLarge
    | ServerError

  /** BLAKE3 tells contents apart. */
  ghost predicate Injective(digest: Bytes -> string) {
    forall a, b :: digest(a) == digest(b) ==> a == b
  }

  class Server {
    const digest: Bytes -> string
    const store: DeliveryStore
    const projects: set<string>
    var uploads: map<string, Bytes>
    var infos: map<string, Info>
    var receipts: map<string, Receipt>

    /** History: the stored bytes at the moment each receipt was published. */
    ghost var accepted: map<string, Bytes>

    /** A receipt names the digest and the length of the bytes that were stored at acceptance; while
        the upload's files last they still hold those bytes and that claim. */
    ghost predicate Vouches(o: string)
      requires o in receipts
      reads this
    {
      && o in accepted
      && receipts[o].checksum == digest(accepted[o])
      && receipts[o].size == |accepted[o]|
      && (o in uploads ==> uploads[o] == accepted[o])
      && (o in infos ==> infos[o].size == receipts[o].size && infos[o].checksum == receipts[o].checksum)
    }

    ghost predicate Valid()
      reads this
    {
      && (forall o :: o in receipts ==> Vouches(o))
      && (forall o :: o in uploads && o in infos ==> |uploads[o]| <= infos[o].size)
    }

    constructor (digest: Bytes -> string, store: DeliveryStore, projects: set<string>)
      ensures Valid() && this.digest == digest && this.store == store && this.projects == projects
      ensures uploads == map[] && infos == map[] && receipts == map[]
    {
      this.digest, this.store, this.projects := digest, store, projects;
      uploads, infos, receipts, accepted := map[], map[], map[], map[];
    }

    /** beforeCreate. An over-long file name is dropped. */
    predicate Admits(info: Info) {
      && info.size >= 1
      && IsIdentifier(info.project) && info.project in projects
      && IsChecksum(info.checksum)
      && |info.filename| <= 1024
    }

    /** POST: an empty upload under a fresh ID, if the request is admissible. */
    method Create(o: string, info: Info) returns (created: bool)
      requires Valid() && o !in uploads && o !in infos && o !in receipts
      modifies `uploads, `infos
      ensures Valid()
      ensures created <==> Admits(info.(filename := ""))
      ensures created ==> o in infos && Admits(infos[o])
      ensures created ==> infos[o] == info.(filename := if |info.filename| > 1024 then "" else info.filename)
      ensures uploads == if created then old(uploads)[o := []] else old(uploads)
      ensures created ==> infos == old(infos)[o := infos[o]]
      ensures !created ==> infos == old(infos)
    {
      created := info.size >= 1 && IsIdentifier(info.project) && info.project in projects && IsChecksum(info.checksum);
      if created {
        var kept := if |info.filename| <= 1024 then info else info.(filename := "");
        uploads, infos := uploads[o := []], infos[o := kept];
      }
    }

    /** The upload goes: cleaned up as abandoned, or purged after packaging. */
    method Remove(o: string)
      requires Valid()
      modifies `uploads, `infos
      ensures Valid() && uploads == old(uploads) - {o} && infos == old(infos) - {o}
    {
      uploads, infos := uploads - {o}, infos - {o};
    }

    /** HEAD: stored bytes and declared length. */
    method Head(o: string) returns (found: Option<(int, int)>)
      ensures found == if o in uploads && o in infos then Some((|uploads[o]|, infos[o].size)) else None
    {
      if o in uploads && o in infos {
        return Some((|uploads[o]|, infos[o].size));
      }
      found := None;
    }

    method GetReceipt(o: string) returns (receipt: Option<Receipt>)
      ensures receipt == if o in receipts then Some(receipts[o]) else None
    {
      receipt := if o in receipts then Some(receipts[o]) else None;
    }

    /** accept: an existing receipt is returned as it is; a new one needs the declared length and the
        declared checksum. Nothing ever overwrites a receipt or an indexed row. */
    method Accept(o: string, now: int, fault: Fault, indexFails: bool) returns (verdict: Verdict)
      requires Valid() && o in uploads && o in infos
      modifies `receipts, `accepted, store
      ensures Valid()
      ensures o in old(receipts) && fault != ReceiptUnreadable ==> verdict == Granted(old(receipts)[o])
      ensures forall x :: x in old(receipts) ==> x in receipts && receipts[x] == old(receipts)[x] && accepted[x] == old(accepted)[x]
      ensures forall x :: x in receipts && x !in old(receipts) ==>
        && x == o && accepted[o] == uploads[o] && receipts[o].acceptedAt == Unix(now)
        && |uploads[o]| == infos[o].size && digest(uploads[o]) == infos[o].checksum
      ensures o in receipts <==>
        || o in old(receipts)
        || (&& (fault == NoFault || fault == ProjectGone || fault == WriteFails(true))
            && |uploads[o]| == infos[o].size && digest(uploads[o]) == infos[o].checksum)
      ensures verdict.Granted? ==> o in receipts && receipts[o] == verdict.receipt
      ensures verdict.Mismatch? ==> o !in receipts && digest(uploads[o]) != infos[o].checksum
      ensures fault == NoFault && |uploads[o]| == infos[o].size ==>
        verdict.Granted? || (verdict.Mismatch? && o !in old(receipts))
      ensures fault == NoFault && |uploads[o]| == infos[o].size && digest(uploads[o]) == infos[o].checksum ==> verdict.Granted?
      ensures store.Contents() ==
        if verdict.Granted? && !indexFails
        then Schema.AddArtifact(old(store.Contents()), o, RowOf(o, infos[o], verdict.receipt))
        else old(store.Contents())
    {
      if fault == ReceiptUnreadable {
        return NotGranted;
      }
      if o in receipts {
        IndexArtifact(o, receipts[o], indexFails);
        return Granted(receipts[o]);
      }
      if fault == SyncFails || |uploads[o]| != infos[o].size {
        return NotGranted;
      }
      if digest(uploads[o]) != infos[o].checksum {
        return Mismatch;
      }
      var receipt := Receipt(digest(uploads[o]), |uploads[o]|, Unix(now));
      if fault == WriteFails(false) {
        return NotGranted;
      }
      receipts := receipts[o := receipt];
      accepted := accepted[o := uploads[o]];
      if fault == WriteFails(true) {
        return NotGranted;
      }
      IndexArtifact(o, receipt, indexFails);
      verdict := Granted(receipt);
    }

    method IndexArtifact(o: string, receipt: Receipt, fails: bool)
      requires o in infos
      modifies store
      ensures store.Contents() ==
        if fails then old(store.Contents()) else Schema.AddArtifact(old(store.Contents()), o, RowOf(o, infos[o], receipt))
    {
      if !fails {
        store.AddArtifact(o, RowOf(o, infos[o], receipt));
      }
    }

    /** PATCH with the bytes that arrived: appended only at the stored offset, and accepted as soon as
        the upload is complete. A complete upload is answered without a receipt. */
    method Patch(o: string, offset: int, body: Bytes, now: int, fault: Fault, indexFails: bool) returns (response: Response)
      requires Valid()
      modifies `uploads, `receipts, `accepted, store
      ensures Valid()
      ensures forall x :: x in old(receipts) ==> x in receipts && receipts[x] == old(receipts)[x] && accepted[x] == old(accepted)[x]
      ensures forall x :: x in receipts && x !in old(receipts) ==>
        && x == o && o in uploads && o in infos && accepted[o] == uploads[o]
        && |uploads[o]| == infos[o].size && digest(uploads[o]) == infos[o].checksum
      ensures uploads.Keys == old(uploads).Keys
      ensures o in receipts <==>
        || o in old(receipts)
        || (&& o in old(uploads) && o in infos && offset == |old(uploads)[o]| < infos[o].size
            && offset + |body| == infos[o].size
            && (fault == NoFault || fault == WriteFails(true))
            && digest(uploads[o]) == infos[o].checksum)
      ensures forall x :: x in uploads && x != o ==> uploads[x] == old(uploads)[x]
      ensures o in uploads ==>
        uploads[o] ==
          if o in infos && offset == |old(uploads)[o]| && |old(uploads)[o]| != infos[o].size
             && |old(uploads)[o]| + |body| <= infos[o].size
          then old(uploads)[o] + body else old(uploads)[o]
      ensures response.NoContent? && response.receipt.Some? ==> o in receipts && receipts[o] == response.receipt.value
      ensures response.NotFound? <==> o !in uploads || o !in infos
      ensures response.OffsetConflict? <==> o in uploads && o in infos && offset != |old(uploads)[o]|
      ensures response == NoContent(None) <==>
        && o in uploads && o in infos && offset == |old(uploads)[o]|
        && (offset == infos[o].size || offset + |body| < infos[o].size)
      ensures response.TooLarge? <==>
        o in uploads && o in infos && offset == |old(uploads)[o]| < infos[o].size < offset + |body|
      ensures response.Unprocessable? ==> digest(uploads[o]) != infos[o].checksum
      ensures fault == NoFault ==> !response.ServerError?
      ensures
        (&& o in uploads && o in infos && offset == |old(uploads)[o]| < infos[o].size
         && offset + |body| == infos[o].size && fault == NoFault
         && digest(uploads[o]) == infos[o].checksum) ==> response.NoContent? && response.receipt.Some?
    {
      if o !in uploads || o !in infos {
        return NotFound;
      }
      if offset != |uploads[o]| {
        return OffsetConflict;
      }
      if |uploads[o]| == infos[o].size {
        return NoContent(None);
      }
      if |uploads[o]| + |body| > infos[o].size {
        return TooLarge;
      }
      uploads := uploads[o := uploads[o] + body];
      if |uploads[o]| < infos[o].size {
        return NoContent(None);
      }
      if fault == ProjectGone {
        return ServerError;
      }
      var verdict := Accept(o, now, fault, indexFails);
      match verdict {
        case Granted(receipt) => response := NoContent(Some(receipt));
        case Mismatch => response := Unprocessable;
        case NotGranted => response := ServerError;
      }
    }
  }
}
