/**
 * One synchronisation pass of `create_vectordb.py`: compare the listing with
 * the saved watermark (`processed_files.json`), load and chunk every new or
 * changed file, replace the chunks of their owners in the vector store,
 * remove the chunks of files no longer listed, then save the new watermark.
 */
module Sync {
  import opened Common
  import opened Loading
  import opened Store

  /** One item of the drive listing: name, content, web URL, id and `lastModifiedDateTime`. */
  datatype ListedFile = ListedFile(name: string, stream: Bytes, url: string, id: FileId, token: Token)

  /** The saved map from file id to the token seen on the last pass. */
  type Watermark = map<FileId, Token>

  /** `dict.get`: a missing id and a null token both read as None. */
  function Get(w: Watermark, id: FileId): Token
  {
    if id in w then w[id] else None
  }

  /** The skip test of the listing loop. */
  predicate IsUnchanged(previous: Watermark, f: ListedFile)
  {
    Get(previous, f.id) == f.token
  }

  function ListedIds(listing: seq<ListedFile>): set<FileId>
  {
    set f | f in listing :: f.id
  }

  /** `current_metadata` after the listing loop: each listed id maps to the token it was listed with last. */
  function Recorded(listing: seq<ListedFile>): Watermark
    decreases |listing|
  {
    if listing == [] then map[]
    else
      var f := listing[|listing| - 1];
      Recorded(listing[..|listing| - 1])[f.id := f.token]
  }

  /** Every listed id is recorded, whether its file was skipped or not, and nothing else is. */
  lemma {:induction false} RecordedKeys(listing: seq<ListedFile>)
    ensures Recorded(listing).Keys == ListedIds(listing)
    decreases |listing|
  {
    if listing != [] {
      var n := |listing| - 1;
      var init := listing[..n];
      RecordedKeys(init);
      assert listing == init + [listing[n]];
      assert ListedIds(listing) == ListedIds(init) + {listing[n].id};
    }
  }

  /** A listed file's token is recorded unless a later listing of the same id overrides it. */
  lemma {:induction false} RecordedToken(listing: seq<ListedFile>, i: nat)
    requires i < |listing|
    requires forall j :: i < j < |listing| ==> listing[j].id != listing[i].id
    ensures listing[i].id in Recorded(listing) && Recorded(listing)[listing[i].id] == listing[i].token
    decreases |listing|
  {
    var n := |listing| - 1;
    if i < n {
      var init := listing[..n];
      RecordedToken(init, i);
      assert listing[n].id != listing[i].id;
    }
  }

  /** With distinct ids, every listed file's own token is what the pass records for it. */
  lemma RecordedWhenDistinct(listing: seq<ListedFile>, f: ListedFile)
    requires forall i, j :: 0 <= i < j < |listing| ==> listing[i].id != listing[j].id
    requires f in listing
    ensures f.id in Recorded(listing) && Recorded(listing)[f.id] == f.token
  {
    var i :| 0 <= i < |listing| && listing[i] == f;
    RecordedToken(listing, i);
  }

  /** `previous_metadata.keys() - current_metadata.keys()`. */
  function DeletedIds(previous: Watermark, current: Watermark): set<FileId>
  {
    previous.Keys - current.Keys
  }

  /**
   * The deleted ids are exactly the previously recorded ids that are not
   * listed now; on a first pass, with nothing recorded, there are none.
   */
  lemma DeletedAreUnlisted(previous: Watermark, listing: seq<ListedFile>, fid: FileId)
    ensures fid in DeletedIds(previous, Recorded(listing)) <==> fid in previous && fid !in ListedIds(listing)
    ensures previous == map[] ==> DeletedIds(previous, Recorded(listing)) == {}
  {
    RecordedKeys(listing);
  }

  /**
   * A file listed without `lastModifiedDateTime` whose id was never recorded
   * counts as unchanged, because `dict.get` answers None for the missing id.
   */
  lemma MissingTokenSkipsNewFile(previous: Watermark, f: ListedFile)
    requires f.token == None && f.id !in previous
    ensures IsUnchanged(previous, f)
  {
  }

  /** The chunks one listed file adds to `all_chunks`. */
  function FileChunks(previous: Watermark, f: ListedFile, loaders: Loaders, splitText: string -> seq<string>): seq<Document>
  {
    if IsUnchanged(previous, f) then []
    else
      var docs := LoadedDocuments(f.name, f.stream, f.url, f.id, loaders);
      if docs == [] then [] else ChunkDocuments(docs, splitText)
  }

  /** `all_chunks` after the listing loop. */
  function NewChunks(previous: Watermark, listing: seq<ListedFile>, loaders: Loaders, splitText: string -> seq<string>): seq<Document>
    decreases |listing|
  {
    if listing == [] then []
    else
      NewChunks(previous, listing[..|listing| - 1], loaders, splitText)
        + FileChunks(previous, listing[|listing| - 1], loaders, splitText)
  }

  /** A listed file that adds chunks of its own: changed, and its loader returned documents. */
  predicate Contributes(previous: Watermark, f: ListedFile, loaders: Loaders)
  {
    !IsUnchanged(previous, f) && LoadedDocuments(f.name, f.stream, f.url, f.id, loaders) != []
  }

  /**
   * Every chunk of a pass is non-empty and owned by a listed file that
   * changed and whose loader returned documents.
   */
  lemma {:induction false} NewChunksOwned(previous: Watermark, listing: seq<ListedFile>, loaders: Loaders,
                                          splitText: string -> seq<string>, c: Document)
    requires c in NewChunks(previous, listing, loaders, splitText)
    ensures c.content != []
    ensures exists f :: f in listing && Contributes(previous, f, loaders) && OwnerOf(c) == Some(f.id)
    decreases |listing|
  {
    var n := |listing| - 1;
    var f := listing[n];
    if c in NewChunks(previous, listing[..n], loaders, splitText) {
      NewChunksOwned(previous, listing[..n], loaders, splitText, c);
      var g :| g in listing[..n] && Contributes(previous, g, loaders) && OwnerOf(c) == Some(g.id);
      assert g in listing;
    } else {
      assert c in FileChunks(previous, f, loaders, splitText);
      ChunksOfLoadedFile(f.name, f.stream, f.url, f.id, loaders, splitText, c);
      assert f in listing;
    }
  }

  /** An id none of whose listings contributes is not an owner of any new chunk. */
  lemma NotAnOwner(previous: Watermark, listing: seq<ListedFile>, loaders: Loaders,
                   splitText: string -> seq<string>, fid: FileId)
    requires forall f :: f in listing && f.id == fid ==> !Contributes(previous, f, loaders)
    ensures fid !in OwnersOf(NewChunks(previous, listing, loaders, splitText))
  {
    if fid in OwnersOf(NewChunks(previous, listing, loaders, splitText)) {
      var c :| c in NewChunks(previous, listing, loaders, splitText) && OwnerOf(c) == Some(fid);
      NewChunksOwned(previous, listing, loaders, splitText, c);
    }
  }

  /** Every owner of a new chunk is a listed id. */
  lemma OwnerIsListed(previous: Watermark, listing: seq<ListedFile>, loaders: Loaders,
                      splitText: string -> seq<string>, fid: FileId)
    requires fid in OwnersOf(NewChunks(previous, listing, loaders, splitText))
    ensures fid in ListedIds(listing)
  {
    var c :| c in NewChunks(previous, listing, loaders, splitText) && OwnerOf(c) == Some(fid);
    NewChunksOwned(previous, listing, loaders, splitText, c);
    var f :| f in listing && Contributes(previous, f, loaders) && OwnerOf(c) == Some(f.id);
  }

  /** Decimal rendering of a counter value, standing in for the text of a `uuid4`. */
  function UuidText(n: nat): string
    decreases n
  {
    if n < 10 then ["0123456789"[n]] else UuidText(n / 10) + ["0123456789"[n % 10]]
  }

  /** A chunk with its `uuid` metadata set. */
  function Stamp(d: Document, n: nat): Document
  {
    d.(metadata := d.metadata[UuidKey := UuidText(n)])
  }

  /** The chunks after the `uuid` loop of `embed_and_store`, drawing consecutive counter values from `base`. */
  function Stamped(chunks: seq<Document>, base: nat): seq<Document>
  {
    seq(|chunks|, i requires 0 <= i < |chunks| => Stamp(chunks[i], base + i))
  }

  /** Setting `uuid` changes neither the owner nor the page content of a chunk. */
  lemma StampedAt(chunks: seq<Document>, base: nat, i: nat)
    requires i < |chunks|
    ensures |Stamped(chunks, base)| == |chunks|
    ensures OwnerOf(Stamped(chunks, base)[i]) == OwnerOf(chunks[i])
    ensures Stamped(chunks, base)[i].content == chunks[i].content
  {
    assert UuidKey != FileIdKey;
  }

  /** Setting `uuid` changes neither the owners nor the page contents of the chunks. */
  lemma StampedKeepsOwners(chunks: seq<Document>, base: nat)
    ensures OwnersOf(Stamped(chunks, base)) == OwnersOf(chunks)
    ensures Contents(Stamped(chunks, base)) == Contents(chunks)
  {
    var s := Stamped(chunks, base);
    forall fid | fid in OwnersOf(chunks) ensures fid in OwnersOf(s) {
      var c :| c in chunks && OwnerOf(c) == Some(fid);
      var i :| 0 <= i < |chunks| && chunks[i] == c;
      StampedAt(chunks, base, i);
      assert s[i] in s;
    }
    forall fid | fid in OwnersOf(s) ensures fid in OwnersOf(chunks) {
      var c :| c in s && OwnerOf(c) == Some(fid);
      var i :| 0 <= i < |s| && s[i] == c;
      StampedAt(chunks, base, i);
      assert chunks[i] in chunks;
    }
    forall i | 0 <= i < |chunks| ensures Contents(s)[i] == Contents(chunks)[i] {
      StampedAt(chunks, base, i);
    }
  }

  /** The first id `add_documents` hands out: stamping the chunks drew the ones below it. */
  function FirstAdded(base: nat, chunks: seq<Document>): nat
  {
    base + |chunks|
  }

  /**
   * The store after `embed_and_store(chunks)` on a store whose next fresh id is
   * `base`; None when embedding raised.
   */
  function AfterEmbed(m: Entries, base: nat, chunks: seq<Document>, embed: string -> Option<Vector>): Option<Entries>
  {
    var stamped := Stamped(chunks, base);
    var vectors := EmbedAll(Contents(stamped), embed);
    if vectors.None? then None else Some(Replace(m, stamped, vectors.value, FirstAdded(base, chunks)))
  }

  /** Deleting the owners' chunks and then adding the stamped chunks under ids from `base + |chunks|` gives `AfterEmbed`. */
  lemma AddedAfterDeleting(m: Entries, base: nat, chunks: seq<Document>, embed: string -> Option<Vector>,
                           stamped: seq<Document>, dropped: Entries, first: nat, result: Entries)
    requires stamped == Stamped(chunks, base)
    requires dropped == DropOwners(m, OwnersOf(chunks))
    requires first == FirstAdded(base, chunks)
    requires EmbedAll(Contents(stamped), embed).Some?
    requires result == dropped + Placed(stamped, EmbedAll(Contents(stamped), embed).value, first)
    ensures AfterEmbed(m, base, chunks, embed) == Some(result)
  {
    StampedKeepsOwners(chunks, base);
    var vectors := EmbedAll(Contents(stamped), embed).value;
    assert dropped == DropOwners(m, OwnersOf(stamped));
    assert result == Replace(m, stamped, vectors, first);
  }

  /** The chunks `embed_and_store(chunks)` adds, under ids from `base + |chunks|` on (the uuids stamped first used the ones below). */
  function Added(base: nat, chunks: seq<Document>, embed: string -> Option<Vector>): Entries
    requires EmbedAll(Contents(Stamped(chunks, base)), embed).Some?
  {
    var stamped := Stamped(chunks, base);
    Placed(stamped, EmbedAll(Contents(stamped), embed).value, FirstAdded(base, chunks))
  }

  /** The store after the `if all_chunks:` step of `main`; None when embedding raised. */
  function Inserted(m: Entries, base: nat, chunks: seq<Document>, embed: string -> Option<Vector>): Option<Entries>
  {
    if chunks == [] then Some(m) else AfterEmbed(m, base, chunks, embed)
  }

  /**
   * Inserting is scoped by owner: an owner of a new chunk ends with exactly
   * its new chunks, every other owner keeps its old ones.
   */
  lemma InsertedScoped(m: Entries, base: nat, chunks: seq<Document>, embed: string -> Option<Vector>, fid: FileId)
    requires forall k :: k in m ==> k < base
    requires Inserted(m, base, chunks, embed).Some?
    ensures fid in OwnersOf(chunks) ==>
              EmbedAll(Contents(Stamped(chunks, base)), embed).Some? &&
              OwnedBy(Inserted(m, base, chunks, embed).value, fid) == OwnedBy(Added(base, chunks, embed), fid)
    ensures fid !in OwnersOf(chunks) ==> OwnedBy(Inserted(m, base, chunks, embed).value, fid) == OwnedBy(m, fid)
  {
    if chunks != [] {
      var stamped := Stamped(chunks, base);
      StampedKeepsOwners(chunks, base);
      var vectors := EmbedAll(Contents(stamped), embed).value;
      ReplaceScoped(m, stamped, vectors, FirstAdded(base, chunks), fid);
    }
  }

  /** The store after a pass that did not raise; None when it raised while embedding. */
  function AfterPass(m: Entries, base: nat, previous: Watermark, listing: seq<ListedFile>, loaders: Loaders,
                     splitText: string -> seq<string>, embed: string -> Option<Vector>): Option<Entries>
  {
    match Inserted(m, base, NewChunks(previous, listing, loaders, splitText), embed)
    case None => None
    case Some(s) => Some(DropOwners(s, DeletedIds(previous, Recorded(listing))))
  }

  /** After a pass, no chunk is owned by a file that was recorded before and is no longer listed. */
  lemma PassRemovesDeleted(m: Entries, base: nat, previous: Watermark, listing: seq<ListedFile>, loaders: Loaders,
                           splitText: string -> seq<string>, embed: string -> Option<Vector>, fid: FileId)
    requires AfterPass(m, base, previous, listing, loaders, splitText, embed).Some?
    requires fid in previous && fid !in ListedIds(listing)
    ensures OwnedBy(AfterPass(m, base, previous, listing, loaders, splitText, embed).value, fid) == map[]
  {
    var chunks := NewChunks(previous, listing, loaders, splitText);
    DeletedAreUnlisted(previous, listing, fid);
    DropOwnersScoped(Inserted(m, base, chunks, embed).value, DeletedIds(previous, Recorded(listing)), fid);
  }

  /**
   * A file that adds no chunks in a pass keeps its old chunks, provided it is
   * still listed or was never recorded: whether it was unchanged, loaded
   * nothing, or loaded only documents that split into empty chunks.
   */
  lemma PassKeepsNonContributing(m: Entries, base: nat, previous: Watermark, listing: seq<ListedFile>, loaders: Loaders,
                                 splitText: string -> seq<string>, embed: string -> Option<Vector>, fid: FileId)
    requires forall k :: k in m ==> k < base
    requires AfterPass(m, base, previous, listing, loaders, splitText, embed).Some?
    requires fid in ListedIds(listing) || fid !in previous
    requires fid !in OwnersOf(NewChunks(previous, listing, loaders, splitText))
    ensures OwnedBy(AfterPass(m, base, previous, listing, loaders, splitText, embed).value, fid) == OwnedBy(m, fid)
  {
    var chunks := NewChunks(previous, listing, loaders, splitText);
    InsertedScoped(m, base, chunks, embed, fid);
    DeletedAreUnlisted(previous, listing, fid);
    DropOwnersScoped(Inserted(m, base, chunks, embed).value, DeletedIds(previous, Recorded(listing)), fid);
  }

  /**
   * The owner of a new chunk ends the pass with exactly the new chunks it
   * owns: its old chunks were deleted before the insertion.
   */
  lemma PassReplacesChanged(m: Entries, base: nat, previous: Watermark, listing: seq<ListedFile>, loaders: Loaders,
                            splitText: string -> seq<string>, embed: string -> Option<Vector>, fid: FileId)
    requires forall k :: k in m ==> k < base
    requires AfterPass(m, base, previous, listing, loaders, splitText, embed).Some?
    requires fid in OwnersOf(NewChunks(previous, listing, loaders, splitText))
    ensures EmbedAll(Contents(Stamped(NewChunks(previous, listing, loaders, splitText), base)), embed).Some?
    ensures OwnedBy(AfterPass(m, base, previous, listing, loaders, splitText, embed).value, fid)
              == OwnedBy(Added(base, NewChunks(previous, listing, loaders, splitText), embed), fid)
  {
    var chunks := NewChunks(previous, listing, loaders, splitText);
    var inserted := Inserted(m, base, chunks, embed).value;
    var deleted := DeletedIds(previous, Recorded(listing));
    assert AfterPass(m, base, previous, listing, loaders, splitText, embed).value == DropOwners(inserted, deleted);
    InsertedScoped(m, base, chunks, embed, fid);
    OwnerIsListed(previous, listing, loaders, splitText, fid);
    DeletedAreUnlisted(previous, listing, fid);
    DropOwnersScoped(inserted, deleted, fid);
  }

  /**
   * A listed file whose token did not change adds no chunks, keeps its old
   * chunks, and keeps its token in the new watermark.
   */
  lemma UnchangedFileUntouched(m: Entries, base: nat, previous: Watermark, listing: seq<ListedFile>, loaders: Loaders,
                               splitText: string -> seq<string>, embed: string -> Option<Vector>, f: ListedFile)
    requires forall k :: k in m ==> k < base
    requires forall i, j :: 0 <= i < j < |listing| ==> listing[i].id != listing[j].id
    requires f in listing && IsUnchanged(previous, f)
    requires AfterPass(m, base, previous, listing, loaders, splitText, embed).Some?
    ensures f.id !in OwnersOf(NewChunks(previous, listing, loaders, splitText))
    ensures OwnedBy(AfterPass(m, base, previous, listing, loaders, splitText, embed).value, f.id) == OwnedBy(m, f.id)
    ensures f.id in Recorded(listing) && Recorded(listing)[f.id] == f.token
  {
    RecordedWhenDistinct(listing, f);
    assert f.id in ListedIds(listing);
    forall g | g in listing && g.id == f.id ensures !Contributes(previous, g, loaders) {
      var i :| 0 <= i < |listing| && listing[i] == g;
      var j :| 0 <= j < |listing| && listing[j] == f;
      assert i == j;
    }
    NotAnOwner(previous, listing, loaders, splitText, f.id);
    PassKeepsNonContributing(m, base, previous, listing, loaders, splitText, embed, f.id);
  }

  /**
   * A changed file whose loader returns no documents adds no chunks, its old
   * chunks survive, and its new token is recorded all the same.
   */
  lemma EmptyLoadKeepsOldChunks(m: Entries, base: nat, previous: Watermark, listing: seq<ListedFile>, loaders: Loaders,
                                splitText: string -> seq<string>, embed: string -> Option<Vector>, f: ListedFile)
    requires forall k :: k in m ==> k < base
    requires forall i, j :: 0 <= i < j < |listing| ==> listing[i].id != listing[j].id
    requires f in listing && LoadedDocuments(f.name, f.stream, f.url, f.id, loaders) == []
    requires AfterPass(m, base, previous, listing, loaders, splitText, embed).Some?
    ensures f.id !in OwnersOf(NewChunks(previous, listing, loaders, splitText))
    ensures OwnedBy(AfterPass(m, base, previous, listing, loaders, splitText, embed).value, f.id) == OwnedBy(m, f.id)
    ensures f.id in Recorded(listing) && Recorded(listing)[f.id] == f.token
  {
    RecordedWhenDistinct(listing, f);
    assert f.id in ListedIds(listing);
    forall g | g in listing && g.id == f.id ensures !Contributes(previous, g, loaders) {
      var i :| 0 <= i < |listing| && listing[i] == g;
      var j :| 0 <= j < |listing| && listing[j] == f;
      assert i == j;
    }
    NotAnOwner(previous, listing, loaders, splitText, f.id);
    PassKeepsNonContributing(m, base, previous, listing, loaders, splitText, embed, f.id);
  }

  /**
   * When embedding raises, a file that adds no chunks still keeps all of its
   * old chunks: only the owners of new chunks lost theirs before the raise.
   */
  lemma AbortKeepsNonOwners(m: Entries, previous: Watermark, listing: seq<ListedFile>, loaders: Loaders,
                            splitText: string -> seq<string>, fid: FileId)
    requires fid !in OwnersOf(NewChunks(previous, listing, loaders, splitText))
    ensures OwnedBy(DropOwners(m, OwnersOf(NewChunks(previous, listing, loaders, splitText))), fid) == OwnedBy(m, fid)
  {
    DropOwnersScoped(m, OwnersOf(NewChunks(previous, listing, loaders, splitText)), fid);
  }

  /** An unchanged listed file keeps its chunks also when the pass aborts. */
  lemma AbortLeavesUnchangedFile(m: Entries, previous: Watermark, listing: seq<ListedFile>, loaders: Loaders,
                                 splitText: string -> seq<string>, f: ListedFile)
    requires forall i, j :: 0 <= i < j < |listing| ==> listing[i].id != listing[j].id
    requires f in listing && IsUnchanged(previous, f)
    ensures OwnedBy(DropOwners(m, OwnersOf(NewChunks(previous, listing, loaders, splitText))), f.id) == OwnedBy(m, f.id)
  {
    forall g | g in listing && g.id == f.id ensures !Contributes(previous, g, loaders) {
      var i :| 0 <= i < |listing| && listing[i] == g;
      var j :| 0 <= j < |listing| && listing[j] == f;
      assert i == j;
    }
    NotAnOwner(previous, listing, loaders, splitText, f.id);
    AbortKeepsNonOwners(m, previous, listing, loaders, splitText, f.id);
  }

  /** `processed_files.json`: absent until the first save. */
  class MetadataFile {
    var stored: Option<Watermark>

    constructor (initial: Option<Watermark>)
      ensures stored == initial
    {
      stored := initial;
    }

    /** What `load_processed_metadata` would return now. */
    function Current(): Watermark
      reads this
    {
      if stored.Some? then stored.value else map[]
    }

    /** `load_processed_metadata`: the saved map, or an empty one when the file does not exist. */
    method Load() returns (w: Watermark)
      ensures stored.None? ==> w == map[]
      ensures stored.Some? ==> w == stored.value
    {
      w := if stored.Some? then stored.value else map[];
    }

    /** `save_processed_metadata`. */
    method Save(w: Watermark)
      modifies this
      ensures stored == Some(w)
    {
      stored := Some(w);
    }
  }

  /**
   * The `_collection.get` / `delete` loop, as run in `embed_and_store` for the
   * owners of new chunks and in `main` for deleted ids: every chunk owned by
   * one of `fids` is deleted, nothing else.
   */
  method DeleteOwners(store: VectorStore, fids: set<FileId>)
    requires store.Valid()
    modifies store
    ensures store.Valid()
    ensures store.entries == DropOwners(old(store.entries), fids)
    ensures store.nextId == old(store.nextId)
  {
    var pending := fids;
    while pending != {}
      invariant pending <= fids
      invariant store.Valid() && store.nextId == old(store.nextId)
      invariant store.entries == DropOwners(old(store.entries), fids - pending)
      decreases pending
    {
      var fid :| fid in pending;
      var ids := store.IdsOwnedBy(fid);
      DropOneMore(old(store.entries), fids - pending, fid);
      assert (fids - pending) + {fid} == fids - (pending - {fid});
      if ids != {} {
        assert ids == OwnedBy(store.entries, fid).Keys;
        store.Delete(ids);
      } else {
        assert store.entries - OwnedBy(store.entries, fid).Keys == store.entries;
      }
      pending := pending - {fid};
    }
  }

  /** The `uuid` loop of `embed_and_store`: each chunk gets the next fresh value. */
  method StampAll(store: VectorStore, chunks: seq<Document>) returns (stamped: seq<Document>)
    requires store.Valid()
    modifies store
    ensures store.Valid()
    ensures stamped == Stamped(chunks, old(store.nextId))
    ensures store.nextId == old(store.nextId) + |chunks| && store.entries == old(store.entries)
  {
    stamped := chunks;
    var i := 0;
    while i < |stamped|
      invariant 0 <= i <= |stamped| == |chunks|
      invariant store.Valid() && store.entries == old(store.entries)
      invariant store.nextId == old(store.nextId) + i
      invariant forall j :: 0 <= j < i ==> stamped[j] == Stamp(chunks[j], old(store.nextId) + j)
      invariant forall j :: i <= j < |stamped| ==> stamped[j] == chunks[j]
    {
      var u := store.NewUuid();
      stamped := stamped[i := Stamp(stamped[i], u)];
      i := i + 1;
    }
  }

  /**
   * `embed_and_store`: delete the old chunks of every owner of a new chunk,
   * stamp each chunk with a fresh `uuid`, and add them all. When embedding
   * raises, the deletions have already happened and nothing is added.
   */
  method EmbedAndStore(store: VectorStore, chunks: seq<Document>, embed: string -> Option<Vector>) returns (ok: bool)
    requires store.Valid()
    modifies store
    ensures store.Valid()
    ensures ok <==> AfterEmbed(old(store.entries), old(store.nextId), chunks, embed).Some?
    ensures ok ==> Some(store.entries) == AfterEmbed(old(store.entries), old(store.nextId), chunks, embed)
    ensures !ok ==> store.entries == DropOwners(old(store.entries), OwnersOf(chunks))
  {
    DeleteOwners(store, OwnersOf(chunks));
    ghost var dropped := store.entries;
    var stamped := StampAll(store, chunks);
    ghost var first := store.nextId;
    ok := store.AddDocuments(stamped, embed);
    if ok {
      AddedAfterDeleting(old(store.entries), old(store.nextId), chunks, embed, stamped, dropped, first, store.entries);
    }
  }

  /** How `main` ends: normally, or by an exception escaping from the embedding call. */
  datatype PassOutcome = Completed(total: nat) | Aborted

  /**
   * The listing loop of `main`: record every listed file's token, and load
   * and chunk every file whose token differs from the previous one.
   */
  method CollectChunks(listing: seq<ListedFile>, previous: Watermark, loaders: Loaders, splitText: string -> seq<string>)
    returns (current: Watermark, allChunks: seq<Document>)
    ensures current == Recorded(listing)
    ensures allChunks == NewChunks(previous, listing, loaders, splitText)
  {
    allChunks := [];
    current := map[];
    var i := 0;
    while i < |listing|
      invariant 0 <= i <= |listing|
      invariant current == Recorded(listing[..i])
      invariant allChunks == NewChunks(previous, listing[..i], loaders, splitText)
    {
      var f := listing[i];
      assert listing[..i + 1][..i] == listing[..i];
      current := current[f.id := f.token];
      if Get(previous, f.id) != f.token {
        var docs := LoadDocument(f.name, f.stream, f.url, f.id, loaders);
        if docs != [] {
          var chunks := ChunkDocuments(docs, splitText);
          allChunks := allChunks + chunks;
        }
      }
      i := i + 1;
    }
    assert listing[..i] == listing;
  }

  /**
   * `main` after the listing is fetched: diff against the saved watermark,
   * load and chunk new or changed files, store the chunks, remove deleted
   * files' chunks, and only then save the new watermark.
   */
  method RunPass(listing: seq<ListedFile>, meta: MetadataFile, store: VectorStore, loaders: Loaders,
              splitText: string -> seq<string>, embed: string -> Option<Vector>) returns (outcome: PassOutcome)
    requires store.Valid()
    modifies meta, store
    ensures store.Valid()
    ensures outcome.Completed? <==>
            AfterPass(old(store.entries), old(store.nextId), old(meta.Current()), listing, loaders, splitText, embed).Some?
    ensures outcome.Completed? ==>
            Some(store.entries) == AfterPass(old(store.entries), old(store.nextId), old(meta.Current()), listing, loaders, splitText, embed)
    ensures outcome.Completed? ==> meta.stored == Some(Recorded(listing)) && outcome.total == |store.entries|
    ensures outcome.Aborted? ==> meta.stored == old(meta.stored)
    ensures outcome.Aborted? ==>
            store.entries == DropOwners(old(store.entries), OwnersOf(NewChunks(old(meta.Current()), listing, loaders, splitText)))
  {
    var previous := meta.Load();
    var current, allChunks := CollectChunks(listing, previous, loaders, splitText);
    ghost var inserted := store.entries;
    if allChunks != [] {
      var ok := EmbedAndStore(store, allChunks, embed);
      if !ok {
        return Aborted;
      }
      inserted := store.entries;
    }
    assert Inserted(old(store.entries), old(store.nextId), allChunks, embed) == Some(inserted);

    var deleted := previous.Keys - current.Keys;
    DeleteOwners(store, deleted);

    meta.Save(current);
    outcome := Completed(|store.entries|);
  }
}
