/**
 Reconciliation: the scan over the receipts directory that rebuilds missing artifact rows from the
 receipts and the upload metadata, skipping whatever it cannot trust.
 */
module Discovery {
  import opened Wrappers
  import opened PackageNames
  import opened Ordering
  import opened Schema
  import opened Store
  import opened Lifecycle
  import opened Evolution
  import opened LifecycleInvariant
  import opened LifecycleTheorems

  /** The object ID inside the JSON next to what the row needs. */
  datatype Document = Document(objectId: string, receipt: Receipt)

  datatype Entry = Directory | Unreadable | Undecodable | Holds(document: Document)

  const JSON_SUFFIX := ".json"

  function ReceiptName(o: string): string {
    o + JSON_SUFFIX
  }

  /** The upload store: metadata by object, and which uploads it can load. */
  datatype Uploads = Uploads(data: set<string>, infos: map<string, Info>, broken: set<string>)

  /** The file under this name is the receipt of the object that it names. */
  predicate IsReceipt(name: string, entry: Entry) {
    && entry.Holds? && HasSuffix(name, JSON_SUFFIX)
    && entry.document.objectId != "" && name == ReceiptName(entry.document.objectId)
  }

  predicate Names(entries: map<string, Entry>, name: string, o: string) {
    name in entries && IsReceipt(name, entries[name]) && entries[name].document.objectId == o
  }

  predicate Loads(uploads: Uploads, o: string) {
    o in uploads.data && o in uploads.infos && o !in uploads.broken && IsIdentifier(uploads.infos[o].project)
  }

  /** The scan can rebuild this object's row. */
  predicate Recoverable(entries: map<string, Entry>, uploads: Uploads, o: string) {
    Names(entries, ReceiptName(o), o) && Loads(uploads, o)
  }

  function RecoveredRow(entries: map<string, Entry>, uploads: Uploads, o: string): Artifact
    requires Recoverable(entries, uploads, o)
  {
    RowOf(o, uploads.infos[o], entries[ReceiptName(o)].document.receipt)
  }

  /** Old rows stay, and every new row is the one its receipt and metadata give. */
  ghost predicate OnlyRecovers(t: Tables, u: Tables, entries: map<string, Entry>, uploads: Uploads) {
    && u == t.(artifacts := u.artifacts)
    && (forall o :: o in t.artifacts ==> o in u.artifacts && u.artifacts[o] == t.artifacts[o])
    && (forall o :: o in u.artifacts && o !in t.artifacts ==>
          Recoverable(entries, uploads, o) && u.artifacts[o] == RecoveredRow(entries, uploads, o))
  }

  /** The objects whose receipts are among the given names have their rows. */
  ghost predicate Covers(u: Tables, entries: map<string, Entry>, uploads: Uploads, names: seq<string>) {
    forall o :: Recoverable(entries, uploads, o) && ReceiptName(o) in names ==> o in u.artifacts
  }

  lemma CoversNext(t: Tables, u: Tables, entries: map<string, Entry>, uploads: Uploads, names: seq<string>, i: nat)
    requires i < |names| && Covers(t, entries, uploads, names[..i])
    requires forall o :: o in t.artifacts ==> o in u.artifacts
    requires forall o :: Recoverable(entries, uploads, o) && ReceiptName(o) == names[i] ==> o in u.artifacts
    ensures Covers(u, entries, uploads, names[..i + 1])
  {
    assert names[..i + 1] == names[..i] + [names[i]];
  }

  lemma SameNameSameObject(a: string, b: string)
    requires ReceiptName(a) == ReceiptName(b)
    ensures a == b
  {
    assert ReceiptName(a)[..|a|] == a && ReceiptName(b)[..|b|] == b;
  }

  /** One entry of the loop; true when a statement failed. */
  method DiscoverEntry(store: DeliveryStore, entries: map<string, Entry>, uploads: Uploads, name: string, failing: set<string>)
    returns (failed: bool)
    requires name in entries
    modifies store
    ensures OnlyRecovers(old(store.Contents()), store.Contents(), entries, uploads)
    ensures !failed ==> forall o :: Recoverable(entries, uploads, o) && ReceiptName(o) == name ==> o in store.artifacts
    ensures failed ==> entries[name].Holds? && entries[name].document.objectId in failing
  {
    if entries[name].Directory? || !HasSuffix(name, JSON_SUFFIX) {
      return false;
    }
    if !entries[name].Holds? {
      return false;
    }
    var document := entries[name].document;
    var o := document.objectId;
    if o == "" || name != ReceiptName(o) {
      return false;
    }
    forall x | ReceiptName(x) == name ensures x == o {
      SameNameSameObject(x, o);
    }
    if o in failing {
      return true;
    }
    var exists_ := store.HasArtifact(o);
    if exists_ || o !in uploads.data || o !in uploads.infos || o in uploads.broken {
      return false;
    }
    if !IsIdentifier(uploads.infos[o].project) {
      return false;
    }
    store.AddArtifact(o, RowOf(o, uploads.infos[o], document.receipt));
    failed := false;
  }

  /** The receipts directory as ReadDir finds it. */
  datatype Listing = NoDirectory | ListFails | Listed(entries: map<string, Entry>)

  /** discoverAccepted. Without a directory there is nothing to do. Unless it cannot be listed, a
      statement fails or the context ends, every recoverable object is indexed afterwards; nothing that
      was indexed changes. */
  method DiscoverAccepted(store: DeliveryStore, directory: Listing, uploads: Uploads, failing: set<string>,
                          cancelAt: Option<nat>) returns (failed: bool)
    modifies store
    ensures !directory.Listed? ==> store.Contents() == old(store.Contents()) && (failed <==> directory.ListFails?)
    ensures directory.Listed? ==> OnlyRecovers(old(store.Contents()), store.Contents(), directory.entries, uploads)
    ensures directory.Listed? && !failed ==> forall o :: Recoverable(directory.entries, uploads, o) ==> o in store.artifacts
    ensures !directory.ListFails? && failing == {} && cancelAt.None? ==> !failed
  {
    match directory {
      case NoDirectory => failed := false;
      case ListFails => failed := true;
      case Listed(entries) => failed := DiscoverEntries(store, entries, uploads, failing, cancelAt);
    }
  }

  /** Its loop. */
  method DiscoverEntries(store: DeliveryStore, entries: map<string, Entry>, uploads: Uploads, failing: set<string>,
                         cancelAt: Option<nat>) returns (failed: bool)
    modifies store
    ensures OnlyRecovers(old(store.Contents()), store.Contents(), entries, uploads)
    ensures !failed ==> forall o :: Recoverable(entries, uploads, o) ==> o in store.artifacts
    ensures failing == {} && cancelAt.None? ==> !failed
  {
    var names := SelectAll(entries.Keys, NameRank);
    ListingHolds(entries.Keys, NameRank);
    ghost var start := store.Contents();
    for i := 0 to |names|
      invariant OnlyRecovers(start, store.Contents(), entries, uploads)
      invariant Covers(store.Contents(), entries, uploads, names[..i])
    {
      if cancelAt == Some(i) {
        return true;
      }
      assert names[i] in names;
      ghost var before := store.Contents();
      failed := DiscoverEntry(store, entries, uploads, names[i], failing);
      if failed {
        return;
      }
      CoversNext(before, store.Contents(), entries, uploads, names, i);
    }
    assert names[..|names|] == names;
    failed := false;
  }

  // ---------- Against the running system ----------

  /** What reading a file of the directory finds: a published receipt, or something no receipt owns. */
  ghost predicate ReadAt(w: World, name: string, entry: Entry) {
    && (forall o :: o in w.receipts && name == ReceiptName(o) ==> entry == Holds(Document(o, w.receipts[o])))
    && (entry.Holds? && name == ReceiptName(entry.document.objectId) ==> entry.document.objectId in w.receipts)
  }

  /** The directory holds the published receipts, and beside them only entries that no receipt owns. */
  ghost predicate Shows(w: World, entries: map<string, Entry>) {
    && (forall o :: o in w.receipts ==> ReceiptName(o) in entries)
    && (forall name :: name in entries ==> ReadAt(w, name, entries[name]))
  }

  ghost function StoreOf(w: World): Uploads {
    Uploads(w.uploads.Keys, w.infos, {})
  }

  /** Every receipted object that is not indexed can be rebuilt, as exactly the row that indexing at
      acceptance would have written, and nothing else can. */
  lemma UnindexedIsRecoverable(cfg: Config, w: World, entries: map<string, Entry>, uploads: Uploads, o: string)
    requires WorldInv(cfg, w) && Shows(w, entries) && uploads == StoreOf(w)
    ensures o in w.receipts && o !in w.t.artifacts ==>
      && Recoverable(entries, uploads, o) && o in w.ledger
      && RecoveredRow(entries, uploads, o) == RowOf(o, w.ledger[o].info, w.receipts[o])
    ensures Recoverable(entries, uploads, o) ==> o in w.receipts
  {
    assert ObjectOk(w, o);
    if o in w.receipts && o !in w.t.artifacts {
      var name := ReceiptName(o);
      assert name[|name| - |JSON_SUFFIX|..] == JSON_SUFFIX;
      assert ReadAt(w, name, entries[name]);
      assert o != "";
    }
    if Recoverable(entries, uploads, o) {
      assert ReadAt(w, ReceiptName(o), entries[ReceiptName(o)]);
    }
  }

  /** A scan that meets no failure leaves indexed = receipted, with the rows of acceptance and the
      package assignments of every row that was there. */
  lemma ScanIndexesExactlyTheReceipted(cfg: Config, w: World, u: Tables, entries: map<string, Entry>, uploads: Uploads)
    requires WorldInv(cfg, w) && Shows(w, entries) && uploads == StoreOf(w)
    requires OnlyRecovers(w.t, u, entries, uploads)
    requires forall o :: Recoverable(entries, uploads, o) ==> o in u.artifacts
    ensures u.artifacts.Keys == w.receipts.Keys
    ensures forall o :: o in w.t.artifacts ==> u.artifacts[o] == w.t.artifacts[o]
    ensures forall o :: o in u.artifacts && o !in w.t.artifacts ==>
      o in w.ledger && u.artifacts[o] == RowOf(o, w.ledger[o].info, w.receipts[o])
  {
    forall o
      ensures o in u.artifacts <==> o in w.receipts
      ensures o in u.artifacts && o !in w.t.artifacts ==>
        o in w.ledger && u.artifacts[o] == RowOf(o, w.ledger[o].info, w.receipts[o])
    {
      assert ObjectOk(w, o);
      UnindexedIsRecoverable(cfg, w, entries, uploads, o);
    }
  }

  /** One pass of the loop body over a listed name: the instants of reading the receipt, of hasArtifact,
      of GetUpload and of addArtifact, with any steps of the system between them. */
  datatype Look = Look(entry: Entry, read: nat, asked: nat, loaded: nat, inserted: nat)

  /** The look gets as far as addArtifact. */
  ghost predicate Inserts(worlds: seq<World>, name: string, look: Look)
    requires look.asked < |worlds| && look.loaded < |worlds|
  {
    && IsReceipt(name, look.entry)
    && look.entry.document.objectId !in worlds[look.asked].t.artifacts
    && Loads(StoreOf(worlds[look.loaded]), look.entry.document.objectId)
  }

  /** The tables after its addArtifact, with the metadata of one instant and the receipt of another. */
  ghost function Inserted(worlds: seq<World>, name: string, look: Look): Tables
    requires look.asked < |worlds| && look.loaded < |worlds| && look.inserted < |worlds|
    requires Inserts(worlds, name, look)
  {
    var document := look.entry.document;
    AddArtifact(worlds[look.inserted].t, document.objectId,
                RowOf(document.objectId, worlds[look.loaded].infos[document.objectId], document.receipt))
  }

  /** The instants of a look between i and j. */
  ghost predicate Timed(worlds: seq<World>, i: nat, j: nat, name: string, look: Look) {
    && i <= look.read <= look.asked <= look.loaded <= look.inserted <= j < |worlds|
    && ReadAt(worlds[look.read], name, look.entry)
  }

  /** The look takes place between i and j. */
  ghost predicate LooksAt(worlds: seq<World>, i: nat, j: nat, name: string, look: Look) {
    && Timed(worlds, i, j, name, look)
    && (Inserts(worlds, name, look) ==>
          look.inserted < j && worlds[look.inserted + 1].t == Inserted(worlds, name, look))
  }

  /** A complete scan: the directory is listed at i, when it shows every receipt, and each listed name
      is looked at before j. */
  ghost predicate Scans(worlds: seq<World>, i: nat, j: nat, looks: map<string, Look>) {
    && i <= j < |worlds|
    && (forall o :: o in worlds[i].receipts ==> ReceiptName(o) in looks)
    && (forall name :: name in looks ==> LooksAt(worlds, i, j, name, looks[name]))
  }

  /** An addArtifact of the scan is a step of the machine: the indexing of acceptance, or nothing if the
      row came to be since hasArtifact. Whatever happened since GetUpload, it writes no other row. */
  lemma LookIsAStep(cfg: Config, worlds: seq<World>, actions: seq<Action>, i: nat, j: nat, name: string, look: Look)
    requires Lifecycle.IsRun(cfg, worlds, actions)
    requires Timed(worlds, i, j, name, look) && Inserts(worlds, name, look)
    ensures
      var w := worlds[look.inserted];
      var o := look.entry.document.objectId;
      var a := if o in w.t.artifacts then Tick(w.now) else Index(o);
      Enabled(cfg, w, a) && Apply(cfg, w, a).t == Inserted(worlds, name, look)
  {
    var o := look.entry.document.objectId;
    var w := worlds[look.inserted];
    SealedIsForever(cfg, worlds, actions, look.read, look.loaded);
    SealedIsForever(cfg, worlds, actions, look.loaded, look.inserted);
    RunKeeps(cfg, worlds, actions, look.loaded);
    RunKeeps(cfg, worlds, actions, look.inserted);
    assert ObjectOk(worlds[look.loaded], o) && ObjectOk(w, o);
    if o !in w.t.artifacts {
      LedgerStays(cfg, worlds, actions, look.loaded, look.inserted, o);
    }
  }

  lemma {:induction false} LedgerStays(cfg: Config, worlds: seq<World>, actions: seq<Action>, i: nat, j: nat, o: string)
    requires Lifecycle.IsRun(cfg, worlds, actions) && i <= j < |worlds| && o in worlds[i].ledger
    ensures o in worlds[j].ledger && worlds[j].ledger[o] == worlds[i].ledger[o]
    decreases j
  {
    if i < j {
      LedgerStays(cfg, worlds, actions, i, j - 1, o);
      RunKeeps(cfg, worlds, actions, j - 1);
      assert StepAt(cfg, worlds, actions, j - 1);
      StepAdvances(cfg, worlds[j - 1], actions[j - 1]);
    }
  }

  /** A look at a receipted object leaves it indexed: it was, or its metadata cannot be loaded because
      its source was purged since, which only happens to indexed objects, or the look inserts it. */
  lemma LookedAtIsIndexed(cfg: Config, worlds: seq<World>, actions: seq<Action>, i: nat, j: nat, o: string, look: Look)
    requires Lifecycle.IsRun(cfg, worlds, actions) && i <= j < |worlds| && o in worlds[i].receipts
    requires LooksAt(worlds, i, j, ReceiptName(o), look)
    ensures o in worlds[j].t.artifacts
  {
    SealedIsForever(cfg, worlds, actions, i, look.read);
    assert look.entry == Holds(Document(o, worlds[look.read].receipts[o]));
    IsItsReceipt(cfg, worlds, actions, i, o, look.entry.document.receipt);
    if o in worlds[look.asked].t.artifacts {
      SealedIsForever(cfg, worlds, actions, look.asked, j);
    } else if Loads(StoreOf(worlds[look.loaded]), o) {
      SealedIsForever(cfg, worlds, actions, look.inserted + 1, j);
    } else {
      SealedIsForever(cfg, worlds, actions, i, look.loaded);
      UnloadedIsIndexed(cfg, worlds, actions, look.loaded, o);
      SealedIsForever(cfg, worlds, actions, look.loaded, j);
    }
  }

  lemma IsItsReceipt(cfg: Config, worlds: seq<World>, actions: seq<Action>, i: nat, o: string, receipt: Receipt)
    requires Lifecycle.IsRun(cfg, worlds, actions) && i < |worlds| && o in worlds[i].receipts
    ensures IsReceipt(ReceiptName(o), Holds(Document(o, receipt)))
  {
    RunKeeps(cfg, worlds, actions, i);
    assert ObjectOk(worlds[i], o);
    var name := ReceiptName(o);
    assert name[|name| - |JSON_SUFFIX|..] == JSON_SUFFIX;
  }

  lemma UnloadedIsIndexed(cfg: Config, worlds: seq<World>, actions: seq<Action>, h: nat, o: string)
    requires Lifecycle.IsRun(cfg, worlds, actions) && h < |worlds| && o in worlds[h].receipts
    requires !Loads(StoreOf(worlds[h]), o)
    ensures o in worlds[h].t.artifacts
  {
    RunKeeps(cfg, worlds, actions, h);
    assert ObjectOk(worlds[h], o);
  }

  /** A complete scan in a run, with acceptance, indexing, packaging, purging and crashes of the
      receiver between any two of its steps: every object that was receipted when the directory was
      listed is indexed when the scan ends, with the row of its acceptance; rows that were there keep
      their content. */
  lemma ScanWithinARun(cfg: Config, worlds: seq<World>, actions: seq<Action>, i: nat, j: nat, looks: map<string, Look>)
    requires Lifecycle.IsRun(cfg, worlds, actions) && Scans(worlds, i, j, looks)
    ensures forall o :: o in worlds[i].receipts ==>
      && o in worlds[j].t.artifacts && o in worlds[j].ledger
      && RowMatches(worlds[j].t.artifacts[o], o, worlds[j].ledger[o])
      && worlds[j].ledger[o].receipt == worlds[i].receipts[o]
    ensures forall o :: o in worlds[i].t.artifacts ==>
      o in worlds[j].t.artifacts && SameContent(worlds[i].t.artifacts[o], worlds[j].t.artifacts[o])
  {
    SealedIsForever(cfg, worlds, actions, i, j);
    RunKeeps(cfg, worlds, actions, j);
    forall o | o in worlds[i].receipts
      ensures o in worlds[j].t.artifacts && o in worlds[j].ledger
      ensures RowMatches(worlds[j].t.artifacts[o], o, worlds[j].ledger[o])
      ensures worlds[j].ledger[o].receipt == worlds[i].receipts[o]
    {
      assert LooksAt(worlds, i, j, ReceiptName(o), looks[ReceiptName(o)]);
      LookedAtIsIndexed(cfg, worlds, actions, i, j, o, looks[ReceiptName(o)]);
      assert ObjectOk(worlds[j], o);
    }
  }
}
